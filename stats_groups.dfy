/** The per-beatmap statistics of renderStatsTable: one row per beatmap, folded over all records. */
module StatsGroups {
  import opened Wrappers
  import opened Records

  /** The grouping key: the beatmap id, or artist + title + difficulty when the id is 0. */
  datatype GroupKey = MapKey(id: int) | NameKey(name: string)

  function KeyOf(p: PlayRecord): (k: GroupKey)
    ensures p.beatmap.id != 0 ==> k == MapKey(p.beatmap.id)
    ensures p.beatmap.id == 0 ==> k == NameKey(p.beatmap.artist + p.beatmap.title + p.beatmap.difficulty)
    ensures k.MapKey? ==> k.id != 0
  {
    if p.beatmap.id != 0 then MapKey(p.beatmap.id)
    else NameKey(p.beatmap.artist + p.beatmap.title + p.beatmap.difficulty)
  }

  /** One row of the stats table. */
  datatype Group = Group(
    title: string, artist: string, diff: string, mapSetId: int,
    plays: nat, passes: nat, maxPP: int, maxCombo: int, maxAcc: real, totalSeconds: int)

  /** The empty row created from the first record of a beatmap. */
  function NewGroup(p: PlayRecord): (g: Group)
    ensures g.plays == 0 && g.passes == 0 && g.totalSeconds == 0
    ensures g.maxPP == 0 && g.maxCombo == 0 && g.maxAcc == 0.0
    ensures g.title != "" && g.artist != "" && g.diff != ""
    ensures p.beatmap.title != "" ==> g.title == p.beatmap.title
    ensures p.beatmap.artist != "" ==> g.artist == p.beatmap.artist
    ensures p.beatmap.difficulty != "" ==> g.diff == p.beatmap.difficulty
    ensures g.mapSetId == p.beatmap.setId
  {
    Group(
      if p.beatmap.title == "" then "Unknown" else p.beatmap.title,
      if p.beatmap.artist == "" then "Unknown" else p.beatmap.artist,
      if p.beatmap.difficulty == "" then "?" else p.beatmap.difficulty,
      p.beatmap.setId,
      0, 0, 0, 0, 0.0, 0)
  }

  function MaxReal(a: real, b: real): real {
    if a < b then b else a
  }

  /** The row after counting one more record. */
  function AddPlay(g: Group, p: PlayRecord): (r: Group)
    ensures r.plays == g.plays + 1
    ensures r.passes == g.passes + (if p.status == Pass then 1 else 0)
    ensures r.totalSeconds == g.totalSeconds + p.durationSeconds
    ensures r.maxCombo >= g.maxCombo && r.maxCombo >= p.maxCombo && (r.maxCombo == g.maxCombo || r.maxCombo == p.maxCombo)
    ensures r.maxPP >= g.maxPP && r.maxPP >= p.pp && (r.maxPP == g.maxPP || r.maxPP == p.pp)
    ensures r.maxAcc >= g.maxAcc && r.maxAcc >= p.accuracy && (r.maxAcc == g.maxAcc || r.maxAcc == p.accuracy)
    ensures r.title == g.title && r.artist == g.artist && r.diff == g.diff && r.mapSetId == g.mapSetId
  {
    g.(plays := g.plays + 1,
       passes := if p.status == Pass then g.passes + 1 else g.passes,
       maxPP := Max(g.maxPP, p.pp),
       maxAcc := MaxReal(g.maxAcc, p.accuracy),
       totalSeconds := g.totalSeconds + p.durationSeconds,
       maxCombo := if p.maxCombo > g.maxCombo then p.maxCombo else g.maxCombo)
  }

  /** The row for key `k` after the forEach has visited `plays`; None while no record had that key. */
  function Accumulate(plays: seq<PlayRecord>, k: GroupKey): (r: Option<Group>)
    ensures r.Some? ==> 1 <= r.value.plays <= |plays| && r.value.passes <= r.value.plays
    ensures r.Some? ==> r.value.maxCombo >= 0 && r.value.maxPP >= 0 && r.value.maxAcc >= 0.0
    decreases |plays|
  {
    if plays == [] then None
    else
      var p := plays[|plays| - 1];
      var before := Accumulate(plays[..|plays| - 1], k);
      if KeyOf(p) != k then before
      else Some(AddPlay(if before.Some? then before.value else NewGroup(p), p))
  }

  /** Reference counts, independent of the fold: records, passes and seconds for one key. */
  function Tally(plays: seq<PlayRecord>, k: GroupKey): nat {
    if plays == [] then 0
    else Tally(plays[..|plays| - 1], k) + (if KeyOf(plays[|plays| - 1]) == k then 1 else 0)
  }

  function PassTally(plays: seq<PlayRecord>, k: GroupKey): nat {
    if plays == [] then 0
    else
      var p := plays[|plays| - 1];
      PassTally(plays[..|plays| - 1], k) + (if KeyOf(p) == k && p.status == Pass then 1 else 0)
  }

  function SecondsTally(plays: seq<PlayRecord>, k: GroupKey): int {
    if plays == [] then 0
    else
      var p := plays[|plays| - 1];
      SecondsTally(plays[..|plays| - 1], k) + (if KeyOf(p) == k then p.durationSeconds else 0)
  }

  /**
   * What a row counts: as many plays as records with its key, the passes among them
   * (never more than the plays), and the sum of their durations. No row exists for a key
   * no record has.
   */
  lemma {:induction false} GroupCounts(plays: seq<PlayRecord>, k: GroupKey)
    ensures Accumulate(plays, k).Some? <==> Tally(plays, k) > 0
    ensures Accumulate(plays, k).None? <==> forall i :: 0 <= i < |plays| ==> KeyOf(plays[i]) != k
    ensures Accumulate(plays, k).None? ==> PassTally(plays, k) == 0 && SecondsTally(plays, k) == 0
    ensures Accumulate(plays, k).Some? ==>
      var g := Accumulate(plays, k).value;
      && g.plays == Tally(plays, k)
      && g.passes == PassTally(plays, k)
      && g.passes <= g.plays
      && g.totalSeconds == SecondsTally(plays, k)
  {
    if plays != [] {
      var init := plays[..|plays| - 1];
      var p := plays[|plays| - 1];
      GroupCounts(init, k);
      assert forall i :: 0 <= i < |init| ==> init[i] == plays[i];
      assert PassTally(plays, k) == PassTally(init, k) + (if KeyOf(p) == k && p.status == Pass then 1 else 0);
      assert SecondsTally(plays, k) == SecondsTally(init, k) + (if KeyOf(p) == k then p.durationSeconds else 0);
      assert forall i :: 0 <= i < |plays| ==> i < |init| || plays[i] == p;
    }
  }

  /** A row's maxima are at least 0 and at least the combo, pp and accuracy of each of its records. */
  lemma {:induction false} GroupMaxBounds(plays: seq<PlayRecord>, k: GroupKey)
    ensures Accumulate(plays, k).Some? ==>
      var g := Accumulate(plays, k).value;
      && g.maxCombo >= 0 && g.maxPP >= 0 && g.maxAcc >= 0.0
      && (forall i :: 0 <= i < |plays| && KeyOf(plays[i]) == k ==>
            plays[i].maxCombo <= g.maxCombo && plays[i].pp <= g.maxPP && plays[i].accuracy <= g.maxAcc)
  {
    if plays != [] {
      var init := plays[..|plays| - 1];
      GroupMaxBounds(init, k);
      GroupCounts(init, k);
      assert forall i :: 0 <= i < |init| ==> init[i] == plays[i];
    }
  }

  /**
   * Each of a row's maxima is 0 or the combo, pp or accuracy of one of its records; with
   * GroupMaxBounds, it is the largest of them (or 0 when all are below 0).
   */
  lemma {:induction false} GroupMaxAttained(plays: seq<PlayRecord>, k: GroupKey)
    ensures Accumulate(plays, k).Some? ==>
      var g := Accumulate(plays, k).value;
      && (g.maxCombo == 0 || exists i :: 0 <= i < |plays| && KeyOf(plays[i]) == k && plays[i].maxCombo == g.maxCombo)
      && (g.maxPP == 0 || exists i :: 0 <= i < |plays| && KeyOf(plays[i]) == k && plays[i].pp == g.maxPP)
      && (g.maxAcc == 0.0 || exists i :: 0 <= i < |plays| && KeyOf(plays[i]) == k && plays[i].accuracy == g.maxAcc)
  {
    ComboAttained(plays, k);
    PPAttained(plays, k);
    AccAttained(plays, k);
  }

  /** A nonzero best combo is some record's combo. */
  lemma {:induction false} ComboAttained(plays: seq<PlayRecord>, k: GroupKey)
    ensures Accumulate(plays, k).Some? && Accumulate(plays, k).value.maxCombo != 0 ==>
      exists i :: 0 <= i < |plays| && KeyOf(plays[i]) == k && plays[i].maxCombo == Accumulate(plays, k).value.maxCombo
  {
    if plays != [] {
      var init := plays[..|plays| - 1];
      var p := plays[|plays| - 1];
      ComboAttained(init, k);
      if KeyOf(p) == k && Accumulate(init, k).Some? {
        var g := Accumulate(init, k).value;
        if g.maxCombo != 0 && p.maxCombo <= g.maxCombo {
          var i :| 0 <= i < |init| && KeyOf(init[i]) == k && init[i].maxCombo == g.maxCombo;
          assert plays[i] == init[i];
        }
      }
    }
  }

  /** A nonzero best pp is some record's pp. */
  lemma {:induction false} PPAttained(plays: seq<PlayRecord>, k: GroupKey)
    ensures Accumulate(plays, k).Some? && Accumulate(plays, k).value.maxPP != 0 ==>
      exists i :: 0 <= i < |plays| && KeyOf(plays[i]) == k && plays[i].pp == Accumulate(plays, k).value.maxPP
  {
    if plays != [] {
      var init := plays[..|plays| - 1];
      var p := plays[|plays| - 1];
      PPAttained(init, k);
      if KeyOf(p) == k && Accumulate(init, k).Some? {
        var g := Accumulate(init, k).value;
        if g.maxPP != 0 && p.pp <= g.maxPP {
          var i :| 0 <= i < |init| && KeyOf(init[i]) == k && init[i].pp == g.maxPP;
          assert plays[i] == init[i];
        }
      }
    }
  }

  /** A nonzero best accuracy is some record's accuracy. */
  lemma {:induction false} AccAttained(plays: seq<PlayRecord>, k: GroupKey)
    ensures Accumulate(plays, k).Some? && Accumulate(plays, k).value.maxAcc != 0.0 ==>
      exists i :: 0 <= i < |plays| && KeyOf(plays[i]) == k && plays[i].accuracy == Accumulate(plays, k).value.maxAcc
  {
    if plays != [] {
      var init := plays[..|plays| - 1];
      var p := plays[|plays| - 1];
      AccAttained(init, k);
      if KeyOf(p) == k && Accumulate(init, k).Some? {
        var g := Accumulate(init, k).value;
        if g.maxAcc != 0.0 && p.accuracy <= g.maxAcc {
          var i :| 0 <= i < |init| && KeyOf(init[i]) == k && init[i].accuracy == g.maxAcc;
          assert plays[i] == init[i];
        }
      }
    }
  }

  /** The pass-rate column: passes as a percentage of plays, 0 for a row without plays. */
  function PassRate(g: Group): (r: real)
    requires g.passes <= g.plays
    ensures 0.0 <= r <= 100.0
    ensures r == 100.0 <==> 0 < g.plays == g.passes
    ensures r == 0.0 <==> g.passes == 0
  {
    if g.plays == 0 then 0.0 else (g.passes as real / g.plays as real) * 100.0
  }

  /** No key occurs twice. */
  predicate Distinct(ks: seq<GroupKey>) {
    forall i, j :: 0 <= i < j < |ks| ==> ks[i] != ks[j]
  }

  /** The keys in the order the forEach first meets them, each once. */
  function DistinctKeys(plays: seq<PlayRecord>): (ks: seq<GroupKey>)
    ensures Distinct(ks)
    ensures forall k :: k in ks <==> Accumulate(plays, k).Some?
  {
    if plays == [] then []
    else
      var before := DistinctKeys(plays[..|plays| - 1]);
      var k := KeyOf(plays[|plays| - 1]);
      if k in before then before else before + [k]
  }

  /** The rows for the keys `ks`, in that order. */
  function RowsFor(plays: seq<PlayRecord>, ks: seq<GroupKey>): (rows: seq<Group>)
    requires forall k :: k in ks ==> Accumulate(plays, k).Some?
    ensures |rows| == |ks|
    ensures forall j :: 0 <= j < |ks| ==> rows[j] == Accumulate(plays, ks[j]).value
  {
    if ks == [] then [] else RowsFor(plays, ks[..|ks| - 1]) + [Accumulate(plays, ks[|ks| - 1]).value]
  }

  /** The stats table before sorting: one row per beatmap. */
  function GroupRows(plays: seq<PlayRecord>): seq<Group> {
    RowsFor(plays, DistinctKeys(plays))
  }

  /**
   * The forEach of renderStatsTable: fill the `groups` dictionary record by record, then
   * take its values in insertion order.
   */
  method GroupPlays(plays: seq<PlayRecord>) returns (rows: seq<Group>)
    ensures rows == GroupRows(plays)
  {
    var groups: map<GroupKey, Group> := map[];
    var keys: seq<GroupKey> := [];
    var i := 0;
    while i < |plays|
      invariant 0 <= i <= |plays|
      invariant keys == DistinctKeys(plays[..i])
      invariant forall k :: k in groups <==> k in keys
      invariant forall k :: k in groups ==> Accumulate(plays[..i], k) == Some(groups[k])
    {
      var play := plays[i];
      var id := KeyOf(play);
      if id !in groups {
        groups := groups[id := NewGroup(play)];
        keys := keys + [id];
      }
      groups := groups[id := AddPlay(groups[id], play)];
      assert plays[..i + 1][..i] == plays[..i];
      i := i + 1;
    }
    assert plays[..i] == plays;
    rows := seq(|keys|, j requires 0 <= j < |keys| => groups[keys[j]]);
  }

  function SumPlays(rows: seq<Group>): int {
    if rows == [] then 0 else SumPlays(rows[..|rows| - 1]) + rows[|rows| - 1].plays
  }

  function SumTally(plays: seq<PlayRecord>, ks: seq<GroupKey>): int {
    if ks == [] then 0 else SumTally(plays, ks[..|ks| - 1]) + Tally(plays, ks[|ks| - 1])
  }

  lemma {:induction false} SumPlaysIsSumTally(plays: seq<PlayRecord>, ks: seq<GroupKey>)
    requires forall k :: k in ks ==> Accumulate(plays, k).Some?
    ensures SumPlays(RowsFor(plays, ks)) == SumTally(plays, ks)
  {
    if ks != [] {
      var init := ks[..|ks| - 1];
      assert RowsFor(plays, ks)[..|ks| - 1] == RowsFor(plays, init);
      SumPlaysIsSumTally(plays, init);
      GroupCounts(plays, ks[|ks| - 1]);
    }
  }

  /** One more record adds one to the tally of a distinct key list exactly when its key is listed. */
  lemma {:induction false} SumTallyStep(init: seq<PlayRecord>, p: PlayRecord, ks: seq<GroupKey>)
    requires Distinct(ks)
    ensures SumTally(init + [p], ks) == SumTally(init, ks) + (if KeyOf(p) in ks then 1 else 0)
  {
    var plays := init + [p];
    assert plays[..|plays| - 1] == init;
    if ks != [] {
      var front := ks[..|ks| - 1];
      assert forall k :: k in front ==> k in ks;
      assert KeyOf(p) in ks <==> KeyOf(p) in front || KeyOf(p) == ks[|ks| - 1];
      assert ks[|ks| - 1] !in front;
      SumTallyStep(init, p, front);
    }
  }

  /** Summed over all keys, the tallies count every record once. */
  lemma {:induction false} SumTallyAll(plays: seq<PlayRecord>)
    ensures SumTally(plays, DistinctKeys(plays)) == |plays|
  {
    if plays != [] {
      var init := plays[..|plays| - 1];
      var p := plays[|plays| - 1];
      assert plays == init + [p];
      var before := DistinctKeys(init);
      SumTallyAll(init);
      SumTallyStep(init, p, before);
      if KeyOf(p) !in before {
        GroupCounts(init, KeyOf(p));
        assert Tally(plays, KeyOf(p)) == 1;
        assert (before + [KeyOf(p)])[..|before|] == before;
      }
    }
  }

  /** The plays column of the stats table adds up to the number of records. */
  lemma RowsCountEveryRecordOnce(plays: seq<PlayRecord>)
    ensures SumPlays(GroupRows(plays)) == |plays|
  {
    SumPlaysIsSumTally(plays, DistinctKeys(plays));
    SumTallyAll(plays);
  }

  /** Every row has at least one play and no more passes than plays. */
  lemma RowsPassesWithinPlays(plays: seq<PlayRecord>)
    ensures forall g :: g in GroupRows(plays) ==> 1 <= g.plays && g.passes <= g.plays
  {
    var ks := DistinctKeys(plays);
    forall g | g in GroupRows(plays)
      ensures 1 <= g.plays && g.passes <= g.plays
    {
      var j :| 0 <= j < |ks| && GroupRows(plays)[j] == g;
      GroupCounts(plays, ks[j]);
    }
  }
}
