/**
 * The production rate computed by every tick of the game loop: the base rate of
 * the owned equipment, scaled by the hired multiplier managers, the levels of
 * the cpsBoost research and the prestige bonus.
 */
module Production {
  import opened Catalog

  /** The count stored for `id`, or 0 when there is none (the source's `m[id] || 0`). */
  function Count<K>(m: map<K, nat>, id: K): nat
  {
    if id in m then m[id] else 0
  }

  /** Sum of owned * baseCps over the catalog entries `cat`, in catalog order. */
  function BaseCps(owned: map<EquipmentId, nat>, cat: seq<Equipment>): real
  {
    if cat == [] then 0.0
    else
      var e := cat[|cat| - 1];
      BaseCps(owned, cat[..|cat| - 1]) + e.baseCps * Count(owned, e.id) as real
  }

  /** The sum over one more catalog entry picks up that entry's term. */
  lemma BaseCpsPrefix(owned: map<EquipmentId, nat>, cat: seq<Equipment>, i: nat)
    requires i < |cat|
    ensures BaseCps(owned, cat[..i + 1]) == BaseCps(owned, cat[..i]) + cat[i].baseCps * Count(owned, cat[i].id) as real
  {
    assert cat[..i + 1][..i] == cat[..i];
  }

  /** The factor a manager contributes: its effect when hired and of multiplier type. */
  function ManagerFactor(m: Manager, hired: set<ManagerId>): real
  {
    if m.id in hired && m.kind == Multiplier then m.effect else 1.0
  }

  function ManagerMultiplier(hired: set<ManagerId>, cat: seq<Manager>): real
  {
    if cat == [] then 1.0
    else ManagerMultiplier(hired, cat[..|cat| - 1]) * ManagerFactor(cat[|cat| - 1], hired)
  }

  /** The product over one more catalog entry picks up that entry's factor. */
  lemma ManagerMultiplierPrefix(hired: set<ManagerId>, cat: seq<Manager>, i: nat)
    requires i < |cat|
    ensures ManagerMultiplier(hired, cat[..i + 1]) == ManagerMultiplier(hired, cat[..i]) * ManagerFactor(cat[i], hired)
  {
    assert cat[..i + 1][..i] == cat[..i];
  }

  /** The factor a research contributes: 1 + effect * level for a started cpsBoost research. */
  function ResearchFactor(r: Research, levels: map<ResearchId, nat>): real
  {
    var level := Count(levels, r.id);
    if level > 0 && r.kind == CpsBoost then 1.0 + r.effect * level as real else 1.0
  }

  function ResearchMultiplier(levels: map<ResearchId, nat>, cat: seq<Research>): real
  {
    if cat == [] then 1.0
    else ResearchMultiplier(levels, cat[..|cat| - 1]) * ResearchFactor(cat[|cat| - 1], levels)
  }

  /** The product over one more catalog entry picks up that entry's factor. */
  lemma ResearchMultiplierPrefix(levels: map<ResearchId, nat>, cat: seq<Research>, i: nat)
    requires i < |cat|
    ensures ResearchMultiplier(levels, cat[..i + 1]) == ResearchMultiplier(levels, cat[..i]) * ResearchFactor(cat[i], levels)
  {
    assert cat[..i + 1][..i] == cat[..i];
  }

  function PrestigeMultiplier(prestigeBonus: nat): real
  {
    if prestigeBonus > 0 then 1.0 + prestigeBonus as real / 100.0 else 1.0
  }

  /** Coins per second: the base rate times the product of all multipliers. */
  function ProductionRate(equipment: map<EquipmentId, nat>, hired: set<ManagerId>,
                          levels: map<ResearchId, nat>, prestigeBonus: nat): real
  {
    BaseCps(equipment, EquipmentData())
      * (ManagerMultiplier(hired, ManagerData()) * ResearchMultiplier(levels, ResearchData())
         * PrestigeMultiplier(prestigeBonus))
  }

  /** The multipliers are never below one, so the rate is at least the base rate,
      which is never negative. */
  lemma ProductionRateAtLeastBase(equipment: map<EquipmentId, nat>, hired: set<ManagerId>,
                                  levels: map<ResearchId, nat>, prestigeBonus: nat)
    ensures 0.0 <= BaseCps(equipment, EquipmentData()) <= ProductionRate(equipment, hired, levels, prestigeBonus)
  {
    var base := BaseCps(equipment, EquipmentData());
    var m := ManagerMultiplier(hired, ManagerData());
    var r := ResearchMultiplier(levels, ResearchData());
    var p := PrestigeMultiplier(prestigeBonus);
    BaseCpsNonNegative(equipment, EquipmentData());
    ManagerMultiplierAtLeastOne(hired, ManagerData());
    ResearchMultiplierAtLeastOne(levels, ResearchData());
    ProductAtLeastOne(m, r);
    ProductAtLeastOne(m * r, p);
    ScaledAtLeast(base, m * r * p);
  }

  lemma ProductAtLeastOne(x: real, y: real)
    requires x >= 1.0 && y >= 1.0
    ensures x * y >= 1.0
  {
    assert x * y - 1.0 == (x - 1.0) * y + (y - 1.0);
    assert (x - 1.0) * y >= 0.0;
  }

  lemma ScaledAtLeast(base: real, f: real)
    requires base >= 0.0 && f >= 1.0
    ensures base * f >= base
  {
    assert base * f - base == base * (f - 1.0);
    assert base * (f - 1.0) >= 0.0;
  }

  lemma {:induction false} BaseCpsNonNegative(owned: map<EquipmentId, nat>, cat: seq<Equipment>)
    requires forall i :: 0 <= i < |cat| ==> cat[i].baseCps >= 0.0
    ensures BaseCps(owned, cat) >= 0.0
  {
    if cat != [] {
      var e := cat[|cat| - 1];
      BaseCpsNonNegative(owned, cat[..|cat| - 1]);
      assert e.baseCps * Count(owned, e.id) as real >= 0.0;
    }
  }

  lemma {:induction false} ManagerMultiplierAtLeastOne(hired: set<ManagerId>, cat: seq<Manager>)
    requires forall i :: 0 <= i < |cat| ==> cat[i].effect >= 1.0
    ensures ManagerMultiplier(hired, cat) >= 1.0
  {
    if cat != [] {
      ManagerMultiplierAtLeastOne(hired, cat[..|cat| - 1]);
      ProductAtLeastOne(ManagerMultiplier(hired, cat[..|cat| - 1]), ManagerFactor(cat[|cat| - 1], hired));
    }
  }

  lemma {:induction false} ResearchMultiplierAtLeastOne(levels: map<ResearchId, nat>, cat: seq<Research>)
    requires forall i :: 0 <= i < |cat| ==> cat[i].effect >= 0.0
    ensures ResearchMultiplier(levels, cat) >= 1.0
  {
    if cat != [] {
      var r := cat[|cat| - 1];
      ResearchMultiplierAtLeastOne(levels, cat[..|cat| - 1]);
      assert r.effect * Count(levels, r.id) as real >= 0.0;
      ProductAtLeastOne(ResearchMultiplier(levels, cat[..|cat| - 1]), ResearchFactor(r, levels));
    }
  }

  // ---------------------------------------------------------------------------
  // What does and does not change the rate

  /** Hiring a manager that is not of multiplier type leaves the multiplier alone. */
  lemma {:induction false} NonMultiplierManagerIgnored(hired: set<ManagerId>, id: ManagerId, cat: seq<Manager>)
    requires forall i :: 0 <= i < |cat| && cat[i].id == id ==> cat[i].kind != Multiplier
    ensures ManagerMultiplier(hired + {id}, cat) == ManagerMultiplier(hired, cat)
  {
    if cat != [] {
      NonMultiplierManagerIgnored(hired, id, cat[..|cat| - 1]);
      assert ManagerFactor(cat[|cat| - 1], hired + {id}) == ManagerFactor(cat[|cat| - 1], hired);
    }
  }

  /** Changing the level of a research that is not of cpsBoost type leaves the multiplier alone. */
  lemma {:induction false} NonCpsResearchIgnored(levels: map<ResearchId, nat>, id: ResearchId, level: nat, cat: seq<Research>)
    requires forall i :: 0 <= i < |cat| && cat[i].id == id ==> cat[i].kind != CpsBoost
    ensures ResearchMultiplier(levels[id := level], cat) == ResearchMultiplier(levels, cat)
  {
    if cat != [] {
      NonCpsResearchIgnored(levels, id, level, cat[..|cat| - 1]);
      assert ResearchFactor(cat[|cat| - 1], levels[id := level]) == ResearchFactor(cat[|cat| - 1], levels);
    }
  }

  /** The auto-click manager does not take part in the production rate. */
  lemma JuniorDoesNotAffectRate(equipment: map<EquipmentId, nat>, hired: set<ManagerId>,
                                levels: map<ResearchId, nat>, prestigeBonus: nat)
    ensures ProductionRate(equipment, hired + {Junior}, levels, prestigeBonus)
         == ProductionRate(equipment, hired, levels, prestigeBonus)
  {
    NonMultiplierManagerIgnored(hired, Junior, ManagerData());
  }

  /** Research of offlineBoost or prestigeBoost type does not take part in the production rate. */
  lemma NonCpsResearchDoesNotAffectRate(equipment: map<EquipmentId, nat>, hired: set<ManagerId>,
                                        levels: map<ResearchId, nat>, prestigeBonus: nat,
                                        id: ResearchId, level: nat)
    requires ResearchById(id).kind != CpsBoost
    ensures ProductionRate(equipment, hired, levels[id := level], prestigeBonus)
         == ProductionRate(equipment, hired, levels, prestigeBonus)
  {
    var cat := ResearchData();
    forall i | 0 <= i < |cat| && cat[i].id == id
      ensures cat[i].kind != CpsBoost
    {
      assert i == ResearchIndex(id);
    }
    NonCpsResearchIgnored(levels, id, level, cat);
  }

  /** A manager whose id does not occur in `cat` plays no part in its multiplier. */
  lemma {:induction false} ManagerMultiplierOtherId(hired: set<ManagerId>, id: ManagerId, cat: seq<Manager>)
    requires forall i :: 0 <= i < |cat| ==> cat[i].id != id
    ensures ManagerMultiplier(hired + {id}, cat) == ManagerMultiplier(hired, cat)
  {
    if cat != [] {
      ManagerMultiplierOtherId(hired, id, cat[..|cat| - 1]);
    }
  }

  /** Hiring the multiplier manager at position k scales the product by its effect. */
  lemma {:induction false} HireMultiplierScales(hired: set<ManagerId>, k: nat, cat: seq<Manager>)
    requires k < |cat| && cat[k].kind == Multiplier && cat[k].id !in hired
    requires forall i, j :: 0 <= i < j < |cat| ==> cat[i].id != cat[j].id
    ensures ManagerMultiplier(hired + {cat[k].id}, cat) == ManagerMultiplier(hired, cat) * cat[k].effect
  {
    var id := cat[k].id;
    var init := cat[..|cat| - 1];
    var last := cat[|cat| - 1];
    if k == |cat| - 1 {
      ManagerMultiplierOtherId(hired, id, init);
    } else {
      assert init[k] == cat[k];
      HireMultiplierScales(hired, k, init);
      assert ManagerFactor(last, hired + {id}) == ManagerFactor(last, hired);
      var before := ManagerMultiplier(hired, init);
      var f := ManagerFactor(last, hired);
      assert before * cat[k].effect * f == before * f * cat[k].effect;
    }
  }

  /** Hiring a manager of multiplier type scales the whole production rate by its effect. */
  lemma HiringMultiplierScalesRate(equipment: map<EquipmentId, nat>, hired: set<ManagerId>,
                                   levels: map<ResearchId, nat>, prestigeBonus: nat, id: ManagerId)
    requires ManagerById(id).kind == Multiplier && id !in hired
    ensures ProductionRate(equipment, hired + {id}, levels, prestigeBonus)
         == ProductionRate(equipment, hired, levels, prestigeBonus) * ManagerById(id).effect
  {
    HireMultiplierScales(hired, ManagerIndex(id), ManagerData());
    var base := BaseCps(equipment, EquipmentData());
    var m := ManagerMultiplier(hired, ManagerData());
    var r := ResearchMultiplier(levels, ResearchData());
    var p := PrestigeMultiplier(prestigeBonus);
    var e := ManagerById(id).effect;
    assert base * (m * e * r * p) == base * (m * r * p) * e;
  }

  /** Equipment whose id does not occur in `cat` does not count towards its base rate. */
  lemma {:induction false} BaseCpsOtherId(owned: map<EquipmentId, nat>, id: EquipmentId, n: nat, cat: seq<Equipment>)
    requires forall i :: 0 <= i < |cat| ==> cat[i].id != id
    ensures BaseCps(owned[id := n], cat) == BaseCps(owned, cat)
  {
    if cat != [] {
      BaseCpsOtherId(owned, id, n, cat[..|cat| - 1]);
    }
  }

  /** One more unit of the entry at position k raises the base rate by exactly its baseCps. */
  lemma {:induction false} BaseCpsAddOne(owned: map<EquipmentId, nat>, k: nat, cat: seq<Equipment>)
    requires k < |cat|
    requires forall i, j :: 0 <= i < j < |cat| ==> cat[i].id != cat[j].id
    ensures BaseCps(owned[cat[k].id := Count(owned, cat[k].id) + 1], cat)
         == BaseCps(owned, cat) + cat[k].baseCps
  {
    var id := cat[k].id;
    var owned' := owned[id := Count(owned, id) + 1];
    var init := cat[..|cat| - 1];
    if k == |cat| - 1 {
      BaseCpsOtherId(owned, id, Count(owned, id) + 1, init);
      assert cat[k].baseCps * (Count(owned, id) + 1) as real
          == cat[k].baseCps * Count(owned, id) as real + cat[k].baseCps;
    } else {
      BaseCpsAddOne(owned, k, init);
      assert init[k] == cat[k];
    }
  }

  /** Buying one unit of catalog equipment raises the base production by its baseCps. */
  lemma BuyingEquipmentRaisesBaseCps(owned: map<EquipmentId, nat>, id: EquipmentId)
    ensures BaseCps(owned[id := Count(owned, id) + 1], EquipmentData())
         == BaseCps(owned, EquipmentData()) + EquipmentById(id).baseCps
  {
    BaseCpsAddOne(owned, EquipmentIndex(id), EquipmentData());
  }
}
