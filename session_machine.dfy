/**
 * The session-reconstruction state machine of main.js (handleStateChange, startNewSession,
 * completeSession), stated as pure functions over the tracker's state. The class in
 * Tracker runs the same steps imperatively and is proved equal to Step.
 */
module SessionMachine {
  import opened Wrappers
  import opened Text
  import opened Records

  /** menu.state values the machine reacts to. */
  const Playing := 2
  const Results := 7

  /** A play that had run more than 2 s and now reports under 1 s with score 0 was restarted. */
  const RetryProgressMs := 2000
  const RetryRestartMs := 1000
  /** A results timestamp older than the session start by more than 60 s belongs to another play. */
  const StaleResultsToleranceMs := 60000
  /** A combo drop counts as a slider break only when the combo had exceeded 5. */
  const SliderBreakComboFloor := 5

  /** The menu states that end a play without a results screen: 0, 1 and 5. */
  predicate IsExitState(state: int) {
    state == 0 || state == 1 || state == 5
  }

  /** The `menu` section of a snapshot; `bm` is None when the beatmap section is missing. */
  datatype Menu = Menu(
    state: int,
    bm: Option<Beatmap>,
    /** menu.mods.str, "" when absent */
    mods: string,
    /** menu.bm.time.current in milliseconds, 0 when absent */
    currentTime: int)

  /** The `gameplay` section; `name` and `grade` are "" when absent. */
  datatype Gameplay = Gameplay(
    name: string,
    score: int, accuracy: real, combo: int,
    misses: int, n50: int, n100: int, n300: int,
    unstableRate: real, grade: string, pp: real, hpNormal: real)

  /**
   * One snapshot of the stream. `profileName` is userProfile.name ("" when absent);
   * `resultsPlayTime` is resultsScreen.playTime already read as milliseconds, None when
   * absent or unreadable.
   */
  datatype Snapshot = Snapshot(
    menu: Option<Menu>,
    gameplay: Option<Gameplay>,
    profileName: string,
    resultsPlayTime: Option<int>)

  /** The open session (currentSession). */
  datatype Session = Session(startTime: int, beatmap: Beatmap, mods: string, isReplay: bool)

  /** The live statistics (liveStats) taken from the latest in-play snapshot. */
  datatype LiveStats = LiveStats(
    pp: real, accuracy: real, score: int,
    misses: int, n50: int, n100: int, n300: int,
    sb: int, ur: real, time: int)

  const ZeroStats := LiveStats(0.0, 0.0, 0, 0, 0, 0, 0, 0, 0.0, 0)

  /** The whole mutable state of the tracker, including the store of committed records. */
  datatype Engine = Engine(
    session: Option<Session>,
    lastMenuState: int,
    maxCombo: int,
    prevCombo: int,
    sliderBreaks: int,
    hasFailed: bool,
    live: LiveStats,
    plays: seq<PlayRecord>,
    lastSaveTime: int)

  /** The state at start-up over a store read back from disk. */
  function Initial(stored: seq<PlayRecord>): (e: Engine)
    ensures e.session == None && e.lastMenuState == 0 && e.plays == stored
  {
    Engine(None, 0, 0, 0, 0, false, ZeroStats, stored, 0)
  }

  /**
   * What every reachable state satisfies: menu state 2 was last seen only with a session
   * open, the counters are not negative and liveStats.sb mirrors the slider-break counter.
   */
  predicate Consistent(e: Engine) {
    && (e.lastMenuState == Playing ==> e.session.Some?)
    && e.maxCombo >= 0
    && e.sliderBreaks >= 0
    && e.live.sb == e.sliderBreaks
  }

  predicate WellFormed(snap: Snapshot) {
    snap.menu.Some? && snap.menu.value.bm.Some? && snap.gameplay.Some?
  }

  /** The player's name and the profile name are both known and differ: someone else's replay. */
  predicate NameMismatch(player: string, profile: string) {
    player != "" && profile != "" && player != profile
  }

  predicate IsRetry(previousTime: int, currentTime: int, score: int) {
    previousTime > RetryProgressMs && currentTime < RetryRestartMs && score == 0
  }

  predicate IsStale(resultsTime: Option<int>, startTime: int) {
    resultsTime.Some? && resultsTime.value < startTime - StaleResultsToleranceMs
  }

  /** Math.round: halves round up. */
  function Round(x: real): (n: int)
    ensures (n as real) - 0.5 <= x < (n as real) + 0.5
  {
    (x + 0.5).Floor
  }

  /**
   * Whole seconds of play: floor(time / 1000), or the wall-clock seconds since the session
   * opened when that is not positive.
   */
  function DurationSeconds(timeMs: int, startTime: int, now: int): (d: int)
    ensures timeMs >= 1000 ==> d >= 1 && d * 1000 <= timeMs < (d + 1) * 1000
    ensures timeMs < 1000 ==> d * 1000 <= now - startTime < (d + 1) * 1000
    ensures timeMs >= 1000 || now >= startTime ==> d >= 0
  {
    var fromPlay := timeMs / 1000;
    if fromPlay <= 0 then (now - startTime) / 1000 else fromPlay
  }

  /** startNewSession: open a session on `bm` and zero every per-session counter. */
  function StartSession(e: Engine, bm: Beatmap, mods: string, now: int): (r: Engine)
    ensures r.session == Some(Session(now, bm, mods, false))
    ensures r.maxCombo == 0 && r.prevCombo == 0 && r.sliderBreaks == 0
    ensures r.live == ZeroStats && !r.hasFailed
    ensures r.plays == e.plays && r.lastMenuState == e.lastMenuState && r.lastSaveTime == e.lastSaveTime
  {
    e.(session := Some(Session(now, bm, mods, false)),
       maxCombo := 0, prevCombo := 0, sliderBreaks := 0,
       live := ZeroStats, hasFailed := false)
  }

  /** The store and lastSaveTime after savePlay(rec): the clock moves only when the record is kept. */
  function Save(e: Engine, rec: PlayRecord, now: int): (r: Engine)
    ensures r.plays == SaveRecord(e.plays, rec)
    ensures Accepts(e.plays, rec) ==> r == e.(plays := e.plays + [rec], lastSaveTime := now)
    ensures !Accepts(e.plays, rec) ==> r == e
  {
    e.(plays := SaveRecord(e.plays, rec),
       lastSaveTime := if Accepts(e.plays, rec) then now else e.lastSaveTime)
  }

  /** The record completeSession builds: Pass takes the results snapshot, Fail and Quit the live stats. */
  function BuildRecord(s: Session, status: Status, final: Gameplay, live: LiveStats,
                       maxCombo: int, now: int, id: int): (r: PlayRecord)
    ensures r.id == id && r.status == status && r.endTime == now
    ensures r.startTime == s.startTime && r.beatmap == s.beatmap && r.mods == s.mods
    ensures r.maxCombo == maxCombo && r.sb == live.sb
    ensures r.durationSeconds == DurationSeconds(live.time, s.startTime, now)
    ensures status == Pass ==>
      && r.score == final.score && r.accuracy == final.accuracy && r.misses == final.misses
      && r.n50 == final.n50 && r.n100 == final.n100 && r.n300 == final.n300
      && r.rank == (if final.grade == "" then "?" else final.grade)
    ensures status != Pass ==>
      && r.score == live.score && r.accuracy == live.accuracy && r.misses == live.misses
      && r.n50 == live.n50 && r.n100 == live.n100 && r.n300 == live.n300
      && r.rank == (if status == Fail then "F" else "-")
    ensures r.rank != ""
  {
    var pass := status == Pass;
    var ur := if pass then final.unstableRate else live.ur;
    PlayRecord(
      id := id,
      startTime := s.startTime, beatmap := s.beatmap, mods := s.mods,
      endTime := now,
      durationSeconds := DurationSeconds(live.time, s.startTime, now),
      status := status,
      score := if pass then final.score else live.score,
      accuracy := if pass then final.accuracy else live.accuracy,
      maxCombo := maxCombo,
      misses := if pass then final.misses else live.misses,
      n50 := if pass then final.n50 else live.n50,
      n100 := if pass then final.n100 else live.n100,
      n300 := if pass then final.n300 else live.n300,
      sb := live.sb,
      pp := Round(if pass then final.pp else live.pp),
      rank := if pass then (if final.grade == "" then "?" else final.grade)
              else if status == Fail then "F" else "-",
      ur := if ur == 0.0 then 0 else Round(ur))
  }

  /**
   * completeSession: close the open session, offering its record to the store unless it is
   * a replay. Every path leaves no session open.
   */
  function CompleteWith(e: Engine, final: Gameplay, status: Status, now: int, id: int): (r: Engine)
    ensures r.session == None
    ensures |e.plays| <= |r.plays| <= |e.plays| + 1 && r.plays[..|e.plays|] == e.plays
    ensures |r.plays| == |e.plays| + 1 ==> Accepts(e.plays, r.plays[|e.plays|])
    ensures e.session.None? || e.session.value.isReplay ==> r.plays == e.plays
    ensures r.lastMenuState == e.lastMenuState && r.hasFailed == e.hasFailed
    ensures r.sliderBreaks == e.sliderBreaks && r.live == e.live && r.maxCombo == e.maxCombo
    ensures r.prevCombo == e.prevCombo
  {
    match e.session
    case None => e
    case Some(s) =>
      if s.isReplay then e.(session := None)
      else Save(e, BuildRecord(s, status, final, e.live, e.maxCombo, now, id), now).(session := None)
  }

  function MarkReplay(e: Engine): Engine {
    match e.session
    case None => e
    case Some(s) => e.(session := Some(s.(isReplay := true)))
  }

  /** The in-play update of the counters and live statistics from one snapshot. */
  function LiveUpdate(e: Engine, menu: Menu, g: Gameplay): (r: Engine)
    requires e.session.Some?
    ensures r.maxCombo >= e.maxCombo && r.maxCombo >= g.combo
    ensures r.maxCombo == e.maxCombo || r.maxCombo == g.combo
    ensures r.prevCombo == g.combo
    ensures g.combo < e.prevCombo && e.prevCombo > SliderBreakComboFloor && g.misses == e.live.misses
            ==> r.sliderBreaks == e.sliderBreaks + 1
    ensures !(g.combo < e.prevCombo && e.prevCombo > SliderBreakComboFloor && g.misses == e.live.misses)
            ==> r.sliderBreaks == e.sliderBreaks
    ensures r.session.Some? && r.session.value.mods == (if menu.mods != "" then menu.mods else e.session.value.mods)
    ensures r.session.value.startTime == e.session.value.startTime
    ensures r.session.value.beatmap == e.session.value.beatmap
    ensures r.session.value.isReplay == e.session.value.isReplay
    ensures r.hasFailed <==>
      e.hasFailed || (!Contains(r.session.value.mods, "NF") && g.hpNormal == 0.0 && g.score > 0)
    ensures r.live == LiveStats(g.pp, g.accuracy, g.score, g.misses, g.n50, g.n100, g.n300,
                                r.sliderBreaks, g.unstableRate, menu.currentTime)
    ensures r.plays == e.plays && r.lastMenuState == e.lastMenuState && r.lastSaveTime == e.lastSaveTime
  {
    var s := if menu.mods != "" then e.session.value.(mods := menu.mods) else e.session.value;
    var broke := g.combo < e.prevCombo && e.prevCombo > SliderBreakComboFloor && g.misses == e.live.misses;
    var sb := if broke then e.sliderBreaks + 1 else e.sliderBreaks;
    e.(session := Some(s),
       maxCombo := Max(e.maxCombo, g.combo),
       prevCombo := g.combo,
       sliderBreaks := sb,
       live := LiveStats(g.pp, g.accuracy, g.score, g.misses, g.n50, g.n100, g.n300, sb, g.unstableRate, menu.currentTime),
       hasFailed := e.hasFailed || (!Contains(s.mods, "NF") && g.hpNormal == 0.0 && g.score > 0))
  }

  /**
   * Part 2 of handleStateChange (menu state 2 with a session open). The replay and retry
   * paths return early and so leave lastMenuState as it was.
   */
  function PlayingStep(e: Engine, menu: Menu, g: Gameplay, bm: Beatmap, mods: string,
                       mismatch: bool, now: int, id: int): (r: Engine)
    requires e.session.Some?
    ensures e.session.value.isReplay ==> r == e
    ensures r.session.Some?
    ensures mismatch ==> r.session.value.isReplay && r.plays == e.plays
    ensures !IsRetry(e.live.time, menu.currentTime, g.score) ==> r.plays == e.plays
    ensures |e.plays| <= |r.plays| <= |e.plays| + 1 && r.plays[..|e.plays|] == e.plays
  {
    if e.session.value.isReplay then e
    else if mismatch then MarkReplay(e)
    else if IsRetry(e.live.time, menu.currentTime, g.score) then
      StartSession(CompleteWith(e, g, if e.hasFailed then Fail else Quit, now, id), bm, mods, now)
    else LiveUpdate(e, menu, g).(lastMenuState := Playing)
  }

  /** Parts 3 and 4 of handleStateChange: a results screen or an exit state after play. */
  function LeavePlay(e: Engine, state: int, g: Gameplay, resultsTime: Option<int>, now: int, id: int): (r: Engine)
    ensures (state == Results || IsExitState(state)) && e.lastMenuState == Playing && e.session.Some?
            ==> r.session == None
    ensures !((state == Results || IsExitState(state)) && e.lastMenuState == Playing && e.session.Some?)
            ==> r == e
    ensures state == Results && e.session.Some? && IsStale(resultsTime, e.session.value.startTime)
            ==> r.plays == e.plays
    ensures |e.plays| <= |r.plays| <= |e.plays| + 1 && r.plays[..|e.plays|] == e.plays
    ensures r.lastMenuState == e.lastMenuState
  {
    if state == Results && e.lastMenuState == Playing && e.session.Some? then
      if IsStale(resultsTime, e.session.value.startTime) then e.(session := None)
      else CompleteWith(e, g, Pass, now, id)
    else if IsExitState(state) && e.lastMenuState == Playing && e.session.Some? then
      CompleteWith(e, g, if e.hasFailed then Fail else Quit, now, id)
    else e
  }

  /** handleStateChange: the state after one snapshot, taken at wall-clock time `now`. */
  function Step(e: Engine, snap: Snapshot, now: int, id: int): (r: Engine)
    ensures !WellFormed(snap) ==> r == e
    ensures WellFormed(snap) && snap.menu.value.state != Playing ==> r.lastMenuState == snap.menu.value.state
    ensures WellFormed(snap) && snap.menu.value.state == Playing && (e.lastMenuState != Playing || e.session.Some?)
            ==> r.session.Some?
  {
    if !WellFormed(snap) then e
    else
      var menu, g := snap.menu.value, snap.gameplay.value;
      var bm := menu.bm.value;
      var mods := ToUpper(menu.mods);
      var mismatch := NameMismatch(g.name, snap.profileName);
      var e1 :=
        if menu.state == Playing && e.lastMenuState != Playing then
          var started := StartSession(e, bm, mods, now);
          if mismatch then MarkReplay(started) else started
        else e;
      if menu.state == Playing && e1.session.Some? then
        PlayingStep(e1, menu, g, bm, mods, mismatch, now, id)
      else
        LeavePlay(e1, menu.state, g, snap.resultsPlayTime, now, id).(lastMenuState := menu.state)
  }
}
