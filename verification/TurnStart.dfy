/** What a start hands over for replay: the list `take` sorts and `resume_pending`
    groups by chat. */
module TurnStart {
  import opened TurnEngine

  predicate Ascends(ids: seq<TurnId>) { forall i, j | 0 <= i < j < |ids| :: ids[i] < ids[j] }

  /** The plan for a list of ids: each id under the chat of its record, in the list's
      order, and nothing else. */
  ghost predicate Groups(journal: map<TurnId, Pending>, ids: seq<TurnId>, plan: map<Chat, seq<Turn>>) {
    && (forall c, i | 0 <= i < |At(plan, c)| ::
          && At(plan, c)[i] == Turn(At(plan, c)[i].id, false, false)
          && At(plan, c)[i].id in ids && At(plan, c)[i].id in journal && journal[At(plan, c)[i].id].chat == c)
    && (forall c, i, j | 0 <= i < j < |At(plan, c)| :: At(plan, c)[i].id < At(plan, c)[j].id)
    && (forall id | id in ids && id in journal :: Turn(id, false, false) in At(plan, journal[id].chat))
  }

  lemma {:induction false} GroupedGroups(journal: map<TurnId, Pending>, ids: seq<TurnId>)
    requires Ascends(ids) && forall i | 0 <= i < |ids| :: ids[i] in journal
    ensures Groups(journal, ids, Grouped(journal, ids))
  {
    if |ids| != 0 {
      var rest, id := ids[..|ids| - 1], ids[|ids| - 1];
      GroupedGroups(journal, rest);
      GroupOneMore(journal, rest, id, Grouped(journal, rest));
      assert ids == rest + [id];
    }
  }

  lemma GroupOneMore(journal: map<TurnId, Pending>, ids: seq<TurnId>, id: TurnId, plan: map<Chat, seq<Turn>>)
    requires Groups(journal, ids, plan) && id in journal && forall other | other in ids :: other < id
    ensures Groups(journal, ids + [id],
                   plan[journal[id].chat := At(plan, journal[id].chat) + [Turn(id, false, false)]])
  {
    var c := journal[id].chat;
    var more := plan[c := At(plan, c) + [Turn(id, false, false)]];
    forall b ensures At(more, b) == (if b == c then At(plan, c) + [Turn(id, false, false)] else At(plan, b)) {}
    forall other | other in ids + [id] && other in journal
      ensures Turn(other, false, false) in At(more, journal[other].chat)
    {
      if other == id { assert At(more, c)[|At(plan, c)|] == Turn(id, false, false); }
    }
  }

  /** What a start has to replay: exactly the fresh and unexhausted records, each under
      its own chat, the oldest first. */
  ghost predicate PlanFor(journal: map<TurnId, Pending>, stale: set<TurnId>, plan: map<Chat, seq<Turn>>) {
    && (forall c, turn | turn in At(plan, c) ::
          && turn == Turn(turn.id, false, false)
          && Replayable(journal, stale, turn.id) && journal[turn.id].chat == c)
    && (forall c, i, j | 0 <= i < j < |At(plan, c)| :: At(plan, c)[i].id < At(plan, c)[j].id)
    && (forall id | Replayable(journal, stale, id) :: Turn(id, false, false) in At(plan, journal[id].chat))
  }

  lemma TakePlanIsRight(journal: map<TurnId, Pending>, stale: set<TurnId>)
    ensures PlanFor(journal, stale, TakePlan(journal, stale))
  {
    var ids := SortedIds(ReplayIds(journal, stale));
    SortedIdsAre(ReplayIds(journal, stale));
    GroupedGroups(journal, ids);
    forall id | Replayable(journal, stale, id)
      ensures Turn(id, false, false) in At(TakePlan(journal, stale), journal[id].chat)
    {
      assert id in ids;
    }
  }

  /** The ids alone fix the list. */
  lemma {:induction false} OneSortedList(ids: seq<TurnId>, all: set<TurnId>)
    requires Ascends(ids) && forall id :: id in ids <==> id in all
    ensures ids == SortedIds(all)
    decreases |ids|
  {
    SortedIdsAre(all);
    var sorted := SortedIds(all);
    if |ids| == 0 {
      assert all == {};
    } else {
      assert ids[0] in all && ids[0] in sorted && sorted[0] in ids;
      var first := sorted[0];
      assert ids[0] == first;
      assert sorted == [first] + SortedIds(all - {first});
      forall id ensures id in ids[1..] <==> id in all - {first} { TailOf(ids, id); }
      OneSortedList(ids[1..], all - {first});
      assert ids == [first] + ids[1..];
    }
  }

  lemma TailOf(ids: seq<TurnId>, id: TurnId)
    requires Ascends(ids) && |ids| != 0
    ensures id in ids[1..] <==> id in ids && id != ids[0]
  {
    if id in ids && id != ids[0] {
      var i :| 0 <= i < |ids| && ids[i] == id;
      assert ids[1..][i - 1] == id;
    }
  }

  // --- the two loops ---

  /** One more id in its place. */
  function InsertId(ids: seq<TurnId>, id: TurnId): seq<TurnId> {
    if |ids| == 0 || id < ids[0] then [id] + ids else [ids[0]] + InsertId(ids[1..], id)
  }

  lemma {:induction false} InsertIdSorts(ids: seq<TurnId>, id: TurnId)
    requires Ascends(ids) && id !in ids
    ensures Ascends(InsertId(ids, id))
    ensures forall other :: other in InsertId(ids, id) <==> other in ids || other == id
  {
    if |ids| != 0 && ids[0] < id {
      var rest := ids[1..];
      assert ids == [ids[0]] + rest;
      InsertIdSorts(rest, id);
      var more := InsertId(rest, id);
      forall j | 0 <= j < |more| ensures ids[0] < more[j] {
        assert more[j] in more;
        if more[j] != id { TailOf(ids, more[j]); }
      }
    }
  }

  /** Where `take` stands once it has been through the records not in `left`. */
  ghost predicate TakenSoFar(disk: Disk, stale: set<TurnId>, stuck: set<TurnId>, left: set<TurnId>,
                             recovery: map<TurnId, Pending>, retained: map<TurnId, Pending>, replay: seq<TurnId>) {
    var j, parked := disk.journal, ParkedIds(disk.journal, stale, stuck);
    && recovery == disk.recovery + Only(j, parked - left)
    && retained == Retained(j, stale, parked + left)
    && ReplaySoFar(j, stale, left, replay)
  }

  ghost predicate ReplaySoFar(j: map<TurnId, Pending>, stale: set<TurnId>, left: set<TurnId>, replay: seq<TurnId>) {
    Ascends(replay) && forall id :: id in replay <==> id !in left && Replayable(j, stale, id)
  }

  lemma TakenNone(disk: Disk, stale: set<TurnId>, stuck: set<TurnId>)
    ensures TakenSoFar(disk, stale, stuck, disk.journal.Keys, disk.recovery, map[], [])
  {
    var j, parked := disk.journal, ParkedIds(disk.journal, stale, stuck);
    assert Only(j, parked - j.Keys) == map[];
    assert Retained(j, stale, parked + j.Keys) == map[];
  }

  lemma TakenAll(disk: Disk, stale: set<TurnId>, stuck: set<TurnId>, recovery: map<TurnId, Pending>,
                 retained: map<TurnId, Pending>, replay: seq<TurnId>, written: bool)
    requires TakenSoFar(disk, stale, stuck, {}, recovery, retained, replay)
    ensures TakenDisk(disk, stale, stuck, written) == Disk(if written then retained else disk.journal, recovery)
    ensures replay == SortedIds(ReplayIds(disk.journal, stale))
  {
    var parked := ParkedIds(disk.journal, stale, stuck);
    assert parked + {} == parked && parked - {} == parked;
    OneSortedList(replay, ReplayIds(disk.journal, stale));
  }

  /** One record on: parked, kept because the recovery file failed, or reserved. */
  lemma TakeOneMore(disk: Disk, stale: set<TurnId>, stuck: set<TurnId>, left: set<TurnId>, id: TurnId,
                    recovery: map<TurnId, Pending>, retained: map<TurnId, Pending>, replay: seq<TurnId>)
    requires TakenSoFar(disk, stale, stuck, left, recovery, retained, replay) && id in left && id in disk.journal
    ensures var j, rest := disk.journal, left - {id};
      if Replayable(j, stale, id) then
        TakenSoFar(disk, stale, stuck, rest, recovery,
                   retained[id := j[id].(replays := j[id].replays + 1)], InsertId(replay, id))
      else if id in stuck then TakenSoFar(disk, stale, stuck, rest, recovery, retained[id := j[id]], replay)
      else TakenSoFar(disk, stale, stuck, rest, recovery[id := j[id]], retained, replay)
  {
    var j, parked, rest := disk.journal, ParkedIds(disk.journal, stale, stuck), left - {id};
    if Replayable(j, stale, id) { InsertIdSorts(replay, id); }
    if id in parked {
      assert parked + rest == parked + left;
      assert Only(j, parked - rest) == Only(j, parked - left)[id := j[id]];
    } else {
      assert parked - rest == parked - left;
      assert Retained(j, stale, parked + rest)
        == Retained(j, stale, parked + left)
             [id := if Replayable(j, stale, id) then j[id].(replays := j[id].replays + 1) else j[id]];
    }
  }

  lemma GroupedNext(journal: map<TurnId, Pending>, ids: seq<TurnId>, i: nat)
    requires i < |ids| && forall k | 0 <= k < |ids| :: ids[k] in journal
    ensures var rest, c := Grouped(journal, ids[..i]), journal[ids[i]].chat;
      Grouped(journal, ids[..i + 1]) == rest[c := At(rest, c) + [Turn(ids[i], false, false)]]
  {
    assert ids[..i + 1][..i] == ids[..i];
  }
}
