/**
 * Committed play records, the noise filter that guards the store (savePlay in main.js)
 * and the removal of a record by id (the 'delete-play' handler).
 */
module Records {

  datatype Status = Pass | Fail | Quit

  /** Beatmap identity and difficulty attributes, copied from the snapshot that opens a session. */
  datatype Beatmap = Beatmap(
    id: int, setId: int,
    artist: string, title: string, difficulty: string, mapper: string,
    ar: real, cs: real, od: real)

  /** One committed attempt at a beatmap; never changed once stored. */
  datatype PlayRecord = PlayRecord(
    id: int,
    startTime: int, beatmap: Beatmap, mods: string,
    endTime: int, durationSeconds: int, status: Status,
    score: int, accuracy: real, maxCombo: int,
    misses: int, n50: int, n100: int, n300: int, sb: int,
    pp: int, rank: string, ur: int)

  /** Hits per second no human can sustain (18 hits/s, 1080 per minute). */
  const MaxHitsPerSecond := 18
  /** How many of the newest stored records the duplicate check looks at. */
  const DuplicateWindow := 5
  /** Durations closer than this many seconds count as the same completion. */
  const DuplicateDurationTolerance := 2

  function Abs(x: int): nat {
    if x < 0 then -x else x
  }

  /** `Math.max` on two integers. */
  function Max(a: int, b: int): (m: int)
    ensures m >= a && m >= b && (m == a || m == b)
  {
    if a < b then b else a
  }

  /** A quit with no score: nobody hit a note (menu flicker, instant reset, replay load). */
  predicate IsGhost(r: PlayRecord) {
    r.status == Quit && r.score == 0
  }

  function TotalHits(r: PlayRecord): int {
    r.n300 + r.n100 + r.n50 + r.misses
  }

  /**
   * The physics check: more than MaxHitsPerSecond judged hits per second over a session
   * longer than one second. The division of the source is stated as a multiplication.
   */
  predicate ImpossibleSpeed(r: PlayRecord) {
    r.durationSeconds > 1 && TotalHits(r) > 0 && TotalHits(r) > MaxHitsPerSecond * r.durationSeconds
  }

  /** The multiplication form agrees with the hit rate the source divides out. */
  lemma SpeedIsHitRate(r: PlayRecord)
    requires r.durationSeconds > 0
    ensures TotalHits(r) > MaxHitsPerSecond * r.durationSeconds
        <==> (TotalHits(r) as real) / (r.durationSeconds as real) > MaxHitsPerSecond as real
  {
    var h, d := TotalHits(r) as real, r.durationSeconds as real;
    assert h == (h / d) * d;
    if h / d > 18.0 {
      assert (h / d) * d > 18.0 * d;
    } else {
      assert (h / d) * d <= 18.0 * d;
    }
  }

  /** `plays.slice(-5)`: the newest DuplicateWindow records, or all of them when there are fewer. */
  function Recent(plays: seq<PlayRecord>): (r: seq<PlayRecord>)
    ensures |r| == if |plays| < DuplicateWindow then |plays| else DuplicateWindow
    ensures r == plays[|plays| - |r|..]
  {
    if |plays| <= DuplicateWindow then plays else plays[|plays| - DuplicateWindow..]
  }

  /** Same beatmap, score and mods, and durations less than two seconds apart. */
  predicate SameCompletion(p: PlayRecord, r: PlayRecord) {
    && p.beatmap.id == r.beatmap.id
    && p.score == r.score
    && p.mods == r.mods
    && Abs(p.durationSeconds - r.durationSeconds) < DuplicateDurationTolerance
  }

  /** `recent.some(p => SameCompletion(p, r))`. */
  function HasDuplicate(recent: seq<PlayRecord>, r: PlayRecord): (b: bool)
    ensures b <==> exists i :: 0 <= i < |recent| && SameCompletion(recent[i], r)
  {
    recent != [] && (SameCompletion(recent[0], r) || HasDuplicate(recent[1..], r))
  }

  predicate IsDuplicate(plays: seq<PlayRecord>, r: PlayRecord) {
    HasDuplicate(Recent(plays), r)
  }

  /** `some` over a suffix of the store is a search over the positions from `k` on. */
  lemma SuffixDuplicate(plays: seq<PlayRecord>, k: int, r: PlayRecord)
    requires 0 <= k <= |plays|
    ensures HasDuplicate(plays[k..], r) <==> exists i :: k <= i < |plays| && SameCompletion(plays[i], r)
  {
    var tail := plays[k..];
    if HasDuplicate(tail, r) {
      var j :| 0 <= j < |tail| && SameCompletion(tail[j], r);
      assert plays[k + j] == tail[j];
    }
    if exists i :: k <= i < |plays| && SameCompletion(plays[i], r) {
      var i :| k <= i < |plays| && SameCompletion(plays[i], r);
      assert tail[i - k] == plays[i];
    }
  }

  /** The duplicate check sees exactly the last DuplicateWindow positions of the store. */
  lemma DuplicateWindowOnly(plays: seq<PlayRecord>, r: PlayRecord)
    ensures IsDuplicate(plays, r) <==>
      exists i :: |plays| - DuplicateWindow <= i < |plays| && 0 <= i && SameCompletion(plays[i], r)
  {
    var k := |plays| - |Recent(plays)|;
    assert Recent(plays) == plays[k..];
    SuffixDuplicate(plays, k, r);
    assert k == if |plays| < DuplicateWindow then 0 else |plays| - DuplicateWindow;
  }

  /** The three rejection rules of the noise filter, in the order the source applies them. */
  predicate Accepts(plays: seq<PlayRecord>, r: PlayRecord): (b: bool)
    ensures b <==>
      && !(r.status == Quit && r.score == 0)
      && (r.durationSeconds <= 1 || TotalHits(r) <= 0 || TotalHits(r) <= MaxHitsPerSecond * r.durationSeconds)
      && forall i :: |plays| - DuplicateWindow <= i < |plays| && 0 <= i ==> !SameCompletion(plays[i], r)
  {
    DuplicateWindowOnly(plays, r);
    !IsGhost(r) && !ImpossibleSpeed(r) && !IsDuplicate(plays, r)
  }

  /** The store after offering `r` to it: appended when the filter accepts, unchanged otherwise. */
  function SaveRecord(plays: seq<PlayRecord>, r: PlayRecord): (s: seq<PlayRecord>)
    ensures Accepts(plays, r) ==> |s| == |plays| + 1 && s[..|plays|] == plays && s[|plays|] == r
    ensures !Accepts(plays, r) ==> s == plays
  {
    if Accepts(plays, r) then plays + [r] else plays
  }

  /** A quit with score exactly 0 never reaches the store. */
  lemma GhostQuitNeverStored(plays: seq<PlayRecord>, r: PlayRecord)
    requires r.status == Quit && r.score == 0
    ensures SaveRecord(plays, r) == plays
  {
  }

  /** Sessions of at most one second always pass the physics check. */
  lemma ShortSessionsPassSpeedCheck(r: PlayRecord)
    requires r.durationSeconds <= 1
    ensures !ImpossibleSpeed(r)
  {
  }

  /** 200 judged hits over 5 seconds (40 hits/s) is rejected whatever the status. */
  lemma FortyHitsPerSecondRejected(plays: seq<PlayRecord>, r: PlayRecord)
    requires r.durationSeconds == 5 && TotalHits(r) == 200
    ensures SaveRecord(plays, r) == plays
  {
  }

  /** A completion equal to the newest stored record (durations within 2 s) is dropped. */
  lemma {:induction false} NearDuplicateRejected(plays: seq<PlayRecord>, p: PlayRecord, r: PlayRecord)
    requires SameCompletion(p, r)
    ensures SaveRecord(plays + [p], r) == plays + [p]
  {
    var s := plays + [p];
    var rec := Recent(s);
    assert rec[|rec| - 1] == p;
  }

  /** Offering the same record twice in a row stores it at most once. */
  lemma {:induction false} ResubmissionStoredOnce(plays: seq<PlayRecord>, r: PlayRecord)
    ensures SaveRecord(SaveRecord(plays, r), r) == SaveRecord(plays, r)
  {
    if Accepts(plays, r) {
      assert SameCompletion(r, r);
      NearDuplicateRejected(plays, r, r);
    }
  }

  /** `plays.filter(p => p.id !== id)`. */
  function WithoutId(plays: seq<PlayRecord>, id: int): (r: seq<PlayRecord>)
    ensures |r| <= |plays|
    ensures forall p :: p in r <==> p in plays && p.id != id
    ensures (forall i :: 0 <= i < |plays| ==> plays[i].id != id) ==> r == plays
    ensures (exists i :: 0 <= i < |plays| && plays[i].id == id) ==> |r| < |plays|
  {
    if plays == [] then []
    else if plays[0].id == id then WithoutId(plays[1..], id)
    else [plays[0]] + WithoutId(plays[1..], id)
  }

  /** Filtering one record keeps it exactly when its id differs. */
  lemma WithoutIdSingle(p: PlayRecord, id: int)
    ensures WithoutId([p], id) == if p.id == id then [] else [p]
  {
    assert [p][1..] == [];
  }

  /**
   * Filtering distributes over concatenation: the kept records stay in their order, each as
   * often as it was stored.
   */
  lemma {:induction false} WithoutIdAppend(a: seq<PlayRecord>, b: seq<PlayRecord>, id: int)
    ensures WithoutId(a + b, id) == WithoutId(a, id) + WithoutId(b, id)
  {
    if a != [] {
      assert (a + b)[0] == a[0];
      assert (a + b)[1..] == a[1..] + b;
      WithoutIdAppend(a[1..], b, id);
    } else {
      assert a + b == b;
    }
  }
}
