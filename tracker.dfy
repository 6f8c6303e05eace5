/**
 * The tracker as main.js runs it: the module-level variables become the fields of one
 * object, and each function that reassigns them becomes a method proved to produce the
 * state that SessionMachine describes.
 */
module Tracker {
  import opened Wrappers
  import opened Text
  import opened Records
  import opened SessionMachine
  import SessionProperties

  class SessionTracker {
    var currentSession: Option<Session>
    var lastMenuState: int
    var maxComboInSession: int
    var prevCombo: int
    var sliderBreaks: int
    var hasFailed: bool
    var liveStats: LiveStats
    /** The store (osu_plays_db.json), kept in memory. */
    var plays: seq<PlayRecord>
    var lastSaveTime: int

    function State(): Engine
      reads this
    {
      Engine(currentSession, lastMenuState, maxComboInSession, prevCombo, sliderBreaks,
             hasFailed, liveStats, plays, lastSaveTime)
    }

    predicate Valid()
      reads this
    {
      Consistent(State())
    }

    /** Start-up: no session, menu state 0, zeroed counters, and the records read from disk. */
    constructor (stored: seq<PlayRecord>)
      ensures Valid() && State() == Initial(stored)
    {
      currentSession := None;
      lastMenuState := 0;
      maxComboInSession := 0;
      prevCombo := 0;
      sliderBreaks := 0;
      hasFailed := false;
      liveStats := ZeroStats;
      plays := stored;
      lastSaveTime := 0;
    }

    /** startNewSession: open a fresh session and zero every per-session counter. */
    method StartNewSession(mapInfo: Beatmap, modsStr: string, now: int)
      modifies this
      ensures State() == StartSession(old(State()), mapInfo, modsStr, now)
      ensures currentSession == Some(Session(now, mapInfo, modsStr, false))
      ensures maxComboInSession == 0 && prevCombo == 0 && sliderBreaks == 0
      ensures liveStats == ZeroStats && !hasFailed
      ensures plays == old(plays) && lastMenuState == old(lastMenuState)
    {
      currentSession := Some(Session(now, mapInfo, modsStr, false));
      maxComboInSession := 0;
      prevCombo := 0;
      sliderBreaks := 0;
      liveStats := ZeroStats;
      hasFailed := false;
    }

    /**
     * savePlay: drop ghost quits, impossible hit rates and repeats of one of the last five
     * records; otherwise append the record and note the save time.
     */
    method SavePlay(playData: PlayRecord, now: int)
      modifies this
      ensures State() == Save(old(State()), playData, now)
      ensures plays == SaveRecord(old(plays), playData)
    {
      var duration := playData.durationSeconds;
      var totalHits := playData.n300 + playData.n100 + playData.n50 + playData.misses;
      if playData.status == Quit && playData.score == 0 {
        return;
      }
      if duration > 1 && totalHits > 0 {
        if totalHits > MaxHitsPerSecond * duration {
          return;
        }
      }
      var isDuplicate := HasDuplicate(Recent(plays), playData);
      if isDuplicate {
        return;
      }
      plays := plays + [playData];
      lastSaveTime := now;
    }

    /**
     * completeSession: close the open session. A replay is dropped; otherwise the record is
     * built from the results snapshot (Pass) or the live statistics (Fail, Quit) and offered
     * to the store. No session is open afterwards.
     */
    method CompleteSession(finalData: Gameplay, status: Status, now: int, id: int)
      modifies this
      ensures State() == CompleteWith(old(State()), finalData, status, now, id)
      ensures currentSession == None
    {
      if currentSession.None? {
        return;
      }
      var session := currentSession.value;
      if session.isReplay {
        currentSession := None;
        return;
      }
      var finalPP, finalAcc, finalScore, finalMiss, finalRank, finalUR, finalTime;
      var n300, n100, n50, finalSB;
      if status == Pass {
        finalPP := finalData.pp;
        finalAcc := finalData.accuracy;
        finalScore := finalData.score;
        finalMiss := finalData.misses;
        n50 := finalData.n50;
        n100 := finalData.n100;
        n300 := finalData.n300;
        finalRank := if finalData.grade == "" then "?" else finalData.grade;
        finalUR := finalData.unstableRate;
        finalTime := liveStats.time;
        finalSB := liveStats.sb;
      } else {
        finalPP := liveStats.pp;
        finalAcc := liveStats.accuracy;
        finalScore := liveStats.score;
        finalMiss := liveStats.misses;
        n50 := liveStats.n50;
        n100 := liveStats.n100;
        n300 := liveStats.n300;
        finalSB := liveStats.sb;
        finalUR := liveStats.ur;
        finalTime := liveStats.time;
        finalRank := if status == Fail then "F" else "-";
      }
      var durationSec := finalTime / 1000;
      if durationSec <= 0 {
        durationSec := (now - session.startTime) / 1000;
      }
      assert durationSec == DurationSeconds(liveStats.time, session.startTime, now);
      var playRecord := PlayRecord(
        id := id,
        startTime := session.startTime, beatmap := session.beatmap, mods := session.mods,
        endTime := now,
        durationSeconds := durationSec,
        status := status,
        score := finalScore, accuracy := finalAcc, maxCombo := maxComboInSession,
        misses := finalMiss, n50 := n50, n100 := n100, n300 := n300, sb := finalSB,
        pp := Round(finalPP),
        rank := finalRank,
        ur := if finalUR == 0.0 then 0 else Round(finalUR));
      assert playRecord == BuildRecord(session, status, finalData, liveStats, maxComboInSession, now, id);
      SavePlay(playRecord, now);
      currentSession := None;
    }

    /**
     * Part 2 of handleStateChange, for a snapshot in menu state 2 with a session open:
     * replay detection, retry detection, then the live-statistics update. `stop` reports
     * the early returns, after which handleStateChange does nothing more.
     */
    method WhilePlaying(menu: Menu, gameplay: Gameplay, mapInfo: Beatmap, mods: string,
                        nameMismatch: bool, now: int, id: int) returns (stop: bool)
      requires currentSession.Some?
      modifies this
      ensures stop ==> State() == PlayingStep(old(State()), menu, gameplay, mapInfo, mods, nameMismatch, now, id)
      ensures !stop ==> State() == LiveUpdate(old(State()), menu, gameplay)
      ensures !stop ==> State().(lastMenuState := Playing) ==
                        PlayingStep(old(State()), menu, gameplay, mapInfo, mods, nameMismatch, now, id)
    {
      stop := true;
      if currentSession.value.isReplay {
        return;
      }
      if nameMismatch {
        currentSession := Some(currentSession.value.(isReplay := true));
        return;
      }
      var currentTime := menu.currentTime;
      if liveStats.time > RetryProgressMs && currentTime < RetryRestartMs && gameplay.score == 0 {
        CompleteSession(gameplay, if hasFailed then Fail else Quit, now, id);
        StartNewSession(mapInfo, mods, now);
        return;
      }
      stop := false;
      UpdateLive(menu, gameplay);
    }

    /**
     * The rest of part 2: best combo, mods, slider breaks, the live statistics and the
     * fail latch, from one in-play snapshot.
     */
    method UpdateLive(menu: Menu, gameplay: Gameplay)
      requires currentSession.Some?
      modifies this
      ensures State() == LiveUpdate(old(State()), menu, gameplay)
    {
      var currentTime := menu.currentTime;
      var currCombo := gameplay.combo;
      var currMisses := gameplay.misses;
      if currCombo > maxComboInSession {
        maxComboInSession := currCombo;
      }
      if menu.mods != "" {
        currentSession := Some(currentSession.value.(mods := menu.mods));
      }
      if currCombo < prevCombo && prevCombo > SliderBreakComboFloor && currMisses == liveStats.misses {
        sliderBreaks := sliderBreaks + 1;
      }
      prevCombo := currCombo;
      liveStats := LiveStats(gameplay.pp, gameplay.accuracy, gameplay.score, currMisses,
                             gameplay.n50, gameplay.n100, gameplay.n300, sliderBreaks,
                             gameplay.unstableRate, currentTime);
      var isNF := Contains(currentSession.value.mods, "NF");
      if !isNF && gameplay.hpNormal == 0.0 && liveStats.score > 0 {
        hasFailed := true;
      }
    }

    /**
     * handleStateChange: detect a play starting (menu state 2), a retry, a pass (7) or a
     * fail or quit (0, 1, 5); update the live statistics in between.
     */
    method HandleStateChange(data: Snapshot, now: int, id: int)
      requires Valid()
      modifies this
      ensures Valid()
      ensures State() == Step(old(State()), data, now, id)
    {
      ghost var e0 := State();
      SessionProperties.StepKeepsConsistent(e0, data, now, id);
      if data.menu.None? || data.menu.value.bm.None? || data.gameplay.None? {
        assert State() == Step(e0, data, now, id);
        return;
      }
      var menu := data.menu.value;
      var mapInfo := menu.bm.value;
      var gameplay := data.gameplay.value;
      var menuState := menu.state;
      var mods := ToUpper(menu.mods);
      var nameMismatch := gameplay.name != "" && data.profileName != "" && gameplay.name != data.profileName;

      // 1. start playing
      if menuState == Playing && lastMenuState != Playing {
        StartNewSession(mapInfo, mods, now);
        if nameMismatch {
          currentSession := Some(currentSession.value.(isReplay := true));
        }
      }
      ghost var e1 := State();
      assert Step(e0, data, now, id) ==
        if menuState == Playing && e1.session.Some? then
          PlayingStep(e1, menu, gameplay, mapInfo, mods, nameMismatch, now, id)
        else
          LeavePlay(e1, menuState, gameplay, data.resultsPlayTime, now, id).(lastMenuState := menuState);

      // 2. while playing
      if menuState == Playing && currentSession.Some? {
        var stop := WhilePlaying(menu, gameplay, mapInfo, mods, nameMismatch, now, id);
        if stop {
          assert State() == Step(e0, data, now, id);
          return;
        }
      }

      // 3. pass
      if menuState == Results && lastMenuState == Playing && currentSession.Some? {
        var isOldScore := false;
        if data.resultsPlayTime.Some? {
          if data.resultsPlayTime.value < currentSession.value.startTime - StaleResultsToleranceMs {
            isOldScore := true;
          }
        }
        if isOldScore {
          currentSession := None;
        } else {
          CompleteSession(gameplay, Pass, now, id);
        }
      }

      // 4. fail or quit
      if IsExitState(menuState) && lastMenuState == Playing && currentSession.Some? {
        var isFail := hasFailed;
        CompleteSession(gameplay, if isFail then Fail else Quit, now, id);
      }
      assert menuState != Playing ==> State() == LeavePlay(e1, menuState, gameplay, data.resultsPlayTime, now, id);

      lastMenuState := menuState;
      assert State() == Step(e0, data, now, id);
    }

    /** The 'delete-play' handler: remove every record with the given id. */
    method DeletePlay(idToDelete: int)
      modifies this
      ensures plays == WithoutId(old(plays), idToDelete)
      ensures State() == old(State()).(plays := plays)
    {
      var kept := WithoutId(plays, idToDelete);
      if |kept| != |plays| {
        plays := kept;
      }
    }
  }
}
