/**
 * The achievement pass: which catalog achievements a game state satisfies, and
 * which of them a pass unlocks given the ids already unlocked.
 */
module Achievements {
  import opened Catalog
  import opened Production

  /** The figures of a game state that the achievement predicates read. */
  datatype Progress = Progress(
    totalCoinsEarned: real,
    equipmentTotal: nat,
    totalClicks: nat,
    managersHired: nat,
    researchStarted: nat,
    prestigeCount: nat,
    profitTrades: nat,
    startTime: int)

  /** Units of equipment owned in all, summed over the catalog entries `cat`. */
  function EquipmentTotal(owned: map<EquipmentId, nat>, cat: seq<Equipment>): nat
  {
    if cat == [] then 0
    else EquipmentTotal(owned, cat[..|cat| - 1]) + Count(owned, cat[|cat| - 1].id)
  }

  /** Whether the state described by `p` meets achievement `a` at time `now`
      (milliseconds); the speed run asks for a million coins within five minutes. */
  predicate Satisfied(a: Achievement, p: Progress, now: int)
  {
    match a.kind
    case ByCoins => p.totalCoinsEarned >= a.requirement as real
    case ByEquipment => p.equipmentTotal >= a.requirement
    case ByClicks => p.totalClicks >= a.requirement
    case ByManagers => p.managersHired >= a.requirement
    case ByResearch => p.researchStarted >= a.requirement
    case ByPrestige => p.prestigeCount >= a.requirement
    case ByProfitTrades => p.profitTrades >= a.requirement
    case BySpeedRun => p.totalCoinsEarned >= 1000000.0 && (now - p.startTime) as real / 1000.0 / 60.0 <= 5.0
  }

  /** Ids the pass over `cat` appends, in catalog order: those not in `seen` whose predicate holds. */
  function UnlockIds(cat: seq<Achievement>, p: Progress, now: int, seen: seq<AchievementId>): seq<AchievementId>
  {
    if cat == [] then []
    else
      var a := cat[|cat| - 1];
      UnlockIds(cat[..|cat| - 1], p, now, seen) + (if a.id !in seen && Satisfied(a, p, now) then [a.id] else [])
  }

  /** Golden blocks the same pass grants. */
  function UnlockReward(cat: seq<Achievement>, p: Progress, now: int, seen: seq<AchievementId>): nat
  {
    if cat == [] then 0
    else
      var a := cat[|cat| - 1];
      UnlockReward(cat[..|cat| - 1], p, now, seen) + (if a.id !in seen && Satisfied(a, p, now) then a.reward else 0)
  }

  /** The pass over one more catalog entry picks up that entry. */
  lemma UnlockPrefix(cat: seq<Achievement>, p: Progress, now: int, seen: seq<AchievementId>, i: nat)
    requires i < |cat|
    ensures var a := cat[i];
      var isNew := a.id !in seen && Satisfied(a, p, now);
      && UnlockIds(cat[..i + 1], p, now, seen) == UnlockIds(cat[..i], p, now, seen) + (if isNew then [a.id] else [])
      && UnlockReward(cat[..i + 1], p, now, seen) == UnlockReward(cat[..i], p, now, seen) + (if isNew then a.reward else 0)
  {
    assert cat[..i + 1][..i] == cat[..i];
  }

  predicate NoDuplicates(s: seq<AchievementId>)
  {
    forall i, j :: 0 <= i < j < |s| ==> s[i] != s[j]
  }

  predicate UniqueIds(cat: seq<Achievement>)
  {
    forall i, j :: 0 <= i < j < |cat| ==> cat[i].id != cat[j].id
  }

  // ---------------------------------------------------------------------------
  // Properties of one pass over any catalog

  /** An id that names no entry of `cat` is never unlocked by a pass over it. */
  lemma {:induction false} UnlockIdsOnlyCatalogIds(cat: seq<Achievement>, p: Progress, now: int,
                                                  seen: seq<AchievementId>, x: AchievementId)
    requires forall k :: 0 <= k < |cat| ==> cat[k].id != x
    ensures x !in UnlockIds(cat, p, now, seen)
  {
    if cat != [] {
      UnlockIdsOnlyCatalogIds(cat[..|cat| - 1], p, now, seen, x);
    }
  }

  /** Every unlocked id is fresh: it was not in `seen`. */
  lemma {:induction false} UnlockIdsFresh(cat: seq<Achievement>, p: Progress, now: int,
                                         seen: seq<AchievementId>, x: AchievementId)
    requires x in seen
    ensures x !in UnlockIds(cat, p, now, seen)
  {
    if cat != [] {
      UnlockIdsFresh(cat[..|cat| - 1], p, now, seen, x);
    }
  }

  /** An entry is unlocked exactly when it was not yet unlocked and its predicate holds. */
  lemma {:induction false} UnlockIdsMembership(cat: seq<Achievement>, p: Progress, now: int,
                                              seen: seq<AchievementId>, k: nat)
    requires k < |cat| && UniqueIds(cat)
    ensures cat[k].id in UnlockIds(cat, p, now, seen) <==> cat[k].id !in seen && Satisfied(cat[k], p, now)
  {
    var init := cat[..|cat| - 1];
    if k == |cat| - 1 {
      UnlockIdsOnlyCatalogIds(init, p, now, seen, cat[k].id);
    } else {
      assert init[k] == cat[k];
      UnlockIdsMembership(init, p, now, seen, k);
    }
  }

  /** Appending the ids of a pass to a list without duplicates keeps it without duplicates. */
  lemma {:induction false} UnlockKeepsNoDuplicates(cat: seq<Achievement>, p: Progress, now: int, seen: seq<AchievementId>)
    requires UniqueIds(cat) && NoDuplicates(seen)
    ensures NoDuplicates(seen + UnlockIds(cat, p, now, seen))
  {
    if cat != [] {
      var init := cat[..|cat| - 1];
      var a := cat[|cat| - 1];
      UnlockKeepsNoDuplicates(init, p, now, seen);
      if a.id !in seen && Satisfied(a, p, now) {
        UnlockIdsOnlyCatalogIds(init, p, now, seen, a.id);
        var s := seen + UnlockIds(init, p, now, seen);
        assert seen + UnlockIds(cat, p, now, seen) == s + [a.id];
        assert a.id !in s;
      } else {
        assert UnlockIds(cat, p, now, seen) == UnlockIds(init, p, now, seen);
      }
    }
  }

  /** A pass unlocks nothing once every entry is unlocked or unmet. */
  lemma {:induction false} UnlockNothingLeft(cat: seq<Achievement>, p: Progress, now: int, seen: seq<AchievementId>)
    requires forall k :: 0 <= k < |cat| ==> cat[k].id in seen || !Satisfied(cat[k], p, now)
    ensures UnlockIds(cat, p, now, seen) == [] && UnlockReward(cat, p, now, seen) == 0
  {
    if cat != [] {
      UnlockNothingLeft(cat[..|cat| - 1], p, now, seen);
    }
  }

  /** Running the pass again on the same figures unlocks nothing more. */
  lemma UnlockIdempotent(cat: seq<Achievement>, p: Progress, now: int, seen: seq<AchievementId>)
    requires UniqueIds(cat)
    ensures var seen' := seen + UnlockIds(cat, p, now, seen);
      UnlockIds(cat, p, now, seen') == [] && UnlockReward(cat, p, now, seen') == 0
  {
    var seen' := seen + UnlockIds(cat, p, now, seen);
    forall k | 0 <= k < |cat|
      ensures cat[k].id in seen' || !Satisfied(cat[k], p, now)
    {
      UnlockIdsMembership(cat, p, now, seen, k);
    }
    UnlockNothingLeft(cat, p, now, seen');
  }

  /** With positive rewards, a pass grants golden blocks exactly when it unlocks something. */
  lemma {:induction false} UnlockRewardPositive(cat: seq<Achievement>, p: Progress, now: int, seen: seq<AchievementId>)
    requires forall k :: 0 <= k < |cat| ==> cat[k].reward > 0
    ensures UnlockReward(cat, p, now, seen) > 0 <==> UnlockIds(cat, p, now, seen) != []
  {
    if cat != [] {
      UnlockRewardPositive(cat[..|cat| - 1], p, now, seen);
    }
  }

  // ---------------------------------------------------------------------------
  // The pass over the game's catalog

  /** The golden blocks the achievements `ids` are worth. */
  function RewardOf(ids: seq<AchievementId>): nat
  {
    if ids == [] then 0 else RewardOf(ids[..|ids| - 1]) + AchievementById(ids[|ids| - 1]).reward
  }

  lemma {:induction false} RewardOfConcat(a: seq<AchievementId>, b: seq<AchievementId>)
    ensures RewardOf(a + b) == RewardOf(a) + RewardOf(b)
  {
    if b != [] {
      var b' := b[..|b| - 1];
      assert (a + b)[..|a + b| - 1] == a + b';
      RewardOfConcat(a, b');
    } else {
      assert a + b == a;
    }
  }

  /** When every entry scanned is the catalog entry of its id, the pass grants
      exactly the rewards of the ids it appends: each once. */
  lemma {:induction false} UnlockRewardIsRewardOf(cat: seq<Achievement>, p: Progress, now: int, seen: seq<AchievementId>)
    requires forall k :: 0 <= k < |cat| ==> AchievementById(cat[k].id) == cat[k]
    ensures UnlockReward(cat, p, now, seen) == RewardOf(UnlockIds(cat, p, now, seen))
  {
    if cat != [] {
      var c := cat[..|cat| - 1];
      var a := cat[|cat| - 1];
      UnlockRewardIsRewardOf(c, p, now, seen);
      var added: seq<AchievementId> := if a.id !in seen && Satisfied(a, p, now) then [a.id] else [];
      RewardOfConcat(UnlockIds(c, p, now, seen), added);
      if added != [] {
        assert added[..0] == [];
      }
    }
  }

  /** The catalog pass grants exactly the rewards of the achievements it unlocks. */
  lemma CatalogUnlockReward(p: Progress, now: int, seen: seq<AchievementId>)
    ensures UnlockReward(AchievementData(), p, now, seen) == RewardOf(UnlockIds(AchievementData(), p, now, seen))
  {
    var cat := AchievementData();
    forall k | 0 <= k < |cat|
      ensures AchievementById(cat[k].id) == cat[k]
    {
      var j := AchievementIndex(cat[k].id);
      assert cat[j].id == cat[k].id;
    }
    UnlockRewardIsRewardOf(cat, p, now, seen);
  }

  /** An achievement is unlocked by the pass exactly when it was not unlocked
      before and the figures meet it; the catalog order plays no part. */
  lemma CatalogUnlockMembership(p: Progress, now: int, seen: seq<AchievementId>, id: AchievementId)
    ensures id in UnlockIds(AchievementData(), p, now, seen)
        <==> id !in seen && Satisfied(AchievementById(id), p, now)
  {
    UnlockIdsMembership(AchievementData(), p, now, seen, AchievementIndex(id));
  }

  /** "Hire all managers" and "unlock all research" ask for every catalog entry. */
  lemma AllOfCatalogThresholds(p: Progress, now: int)
    ensures Satisfied(AchievementById(Automation), p, now) <==> p.managersHired >= |ManagerData()|
    ensures Satisfied(AchievementById(Researcher), p, now) <==> p.researchStarted >= |ResearchData()|
  {
    assert AchievementById(Automation).kind == ByManagers;
    assert AchievementById(Researcher).kind == ByResearch;
  }

  /** One more unit of any catalog equipment raises the equipment total by one. */
  lemma {:induction false} EquipmentTotalAddOne(owned: map<EquipmentId, nat>, k: nat, cat: seq<Equipment>)
    requires k < |cat|
    requires forall i, j :: 0 <= i < j < |cat| ==> cat[i].id != cat[j].id
    ensures EquipmentTotal(owned[cat[k].id := Count(owned, cat[k].id) + 1], cat) == EquipmentTotal(owned, cat) + 1
  {
    var id := cat[k].id;
    var init := cat[..|cat| - 1];
    if k == |cat| - 1 {
      EquipmentTotalOtherId(owned, id, Count(owned, id) + 1, init);
    } else {
      assert init[k] == cat[k];
      EquipmentTotalAddOne(owned, k, init);
    }
  }

  lemma {:induction false} EquipmentTotalOtherId(owned: map<EquipmentId, nat>, id: EquipmentId, n: nat, cat: seq<Equipment>)
    requires forall i :: 0 <= i < |cat| ==> cat[i].id != id
    ensures EquipmentTotal(owned[id := n], cat) == EquipmentTotal(owned, cat)
  {
    if cat != [] {
      EquipmentTotalOtherId(owned, id, n, cat[..|cat| - 1]);
    }
  }

  /** Nothing is owned in a new game. */
  lemma {:induction false} EquipmentTotalEmpty(cat: seq<Equipment>)
    ensures EquipmentTotal(map[], cat) == 0
  {
    if cat != [] {
      EquipmentTotalEmpty(cat[..|cat| - 1]);
    }
  }
}
