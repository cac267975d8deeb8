/**
 * The game session: the one mutable game-state record and the commands that
 * change it (the production tick, mining clicks, purchases, coin trades,
 * prestige and the achievement pass).
 */
module Session {
  import opened Catalog
  import opened Economy
  import opened Production
  import opened Achievements

  /** The position held in `id`, or an empty one at price 0 (the source's `?.amount || 0`). */
  function HoldingOf(investments: map<CryptoId, Holding>, id: CryptoId): Holding
  {
    if id in investments then investments[id] else Holding(0, 0.0)
  }

  /** Every started research is at a level between 1 and its maximum. */
  predicate LevelsWithinLimits(levels: map<ResearchId, nat>)
  {
    forall id :: id in levels ==> 1 <= levels[id] <= ResearchById(id).maxLevel
  }

  /** No coin position has a negative average price. */
  predicate PricesNonNegative(investments: map<CryptoId, Holding>)
  {
    forall id :: id in investments ==> investments[id].avgPrice >= 0.0
  }

  /** Buying coin `id` at any quote keeps every average price non-negative. */
  lemma BuyKeepsPricesNonNegative(investments: map<CryptoId, Holding>, id: CryptoId, amount: nat, u: real)
    requires PricesNonNegative(investments) && amount >= 1 && 0.0 <= u < 1.0
    ensures PricesNonNegative(investments[id := MergeHolding(HoldingOf(investments, id), amount,
                                                              TradeValue(Quote(CryptoById(id), u), amount))])
  {
    QuoteBounds(CryptoIndex(id), u);
    MergeHoldingCostBasis(HoldingOf(investments, id), amount, Quote(CryptoById(id), u));
  }

  /** The figures a fresh game starts with at time `now`. */
  function NewGameProgress(now: int): Progress
  {
    Progress(10.0, 0, 0, 0, 0, 0, 0, now)
  }

  /** A player command, one per action the interface offers. */
  datatype Command =
    | Click(isAuto: bool)
    | PurchaseEquipment(equipmentId: EquipmentId)
    | Hire(managerId: ManagerId)
    | Study(researchId: ResearchId)
    | BuyCoins(cryptoId: CryptoId, amount: nat)
    | SellCoins(cryptoId: CryptoId, amount: nat)
    | Prestige

  /** On a new game started at `start`, the first render's figures already meet
      "First Coin" and its unlock list is empty, so the pass every click runs
      against them unlocks First again: two clicks list it twice and pay its
      reward twice. */
  lemma StaleClickRepeatsFirstCoin(start: int, now: int)
    ensures var ids := UnlockIds(AchievementData(), NewGameProgress(start), now, []);
      && First in ids
      && UnlockReward(AchievementData(), NewGameProgress(start), now, []) > 0
      && !NoDuplicates(ids + ids)
  {
    var p := NewGameProgress(start);
    var ids := UnlockIds(AchievementData(), p, now, []);
    CatalogUnlockMembership(p, now, [], First);
    UnlockRewardPositive(AchievementData(), p, now, []);
    var k :| 0 <= k < |ids| && ids[k] == First;
    assert (ids + ids)[k] == (ids + ids)[|ids| + k];
  }

  /** The equipment loop of the tick: owned * baseCps summed over the catalog. */
  method SumBaseCps(owned: map<EquipmentId, nat>, cat: seq<Equipment>) returns (cps: real)
    ensures cps == BaseCps(owned, cat)
  {
    cps := 0.0;
    var i := 0;
    while i < |cat|
      invariant 0 <= i <= |cat|
      invariant cps == BaseCps(owned, cat[..i])
    {
      var n := Count(owned, cat[i].id);
      if n > 0 {
        cps := cps + cat[i].baseCps * n as real;
      }
      BaseCpsPrefix(owned, cat, i);
      i := i + 1;
    }
    assert cat[..i] == cat;
  }

  /** The manager loop of the tick: the product of the effects of the hired
      managers of multiplier type. */
  method ManagerProduct(hired: set<ManagerId>, cat: seq<Manager>) returns (product: real)
    ensures product == ManagerMultiplier(hired, cat)
  {
    product := 1.0;
    var i := 0;
    while i < |cat|
      invariant 0 <= i <= |cat|
      invariant product == ManagerMultiplier(hired, cat[..i])
    {
      if cat[i].id in hired && cat[i].kind == Multiplier {
        product := product * cat[i].effect;
      }
      ManagerMultiplierPrefix(hired, cat, i);
      i := i + 1;
    }
    assert cat[..i] == cat;
  }

  /** The research loop of the tick: the product of 1 + effect * level over the
      started research of cpsBoost type. */
  method ResearchProduct(levels: map<ResearchId, nat>, cat: seq<Research>) returns (product: real)
    ensures product == ResearchMultiplier(levels, cat)
  {
    product := 1.0;
    var i := 0;
    while i < |cat|
      invariant 0 <= i <= |cat|
      invariant product == ResearchMultiplier(levels, cat[..i])
    {
      var level := Count(levels, cat[i].id);
      if level > 0 && cat[i].kind == CpsBoost {
        product := product * (1.0 + cat[i].effect * level as real);
      }
      ResearchMultiplierPrefix(levels, cat, i);
      i := i + 1;
    }
    assert cat[..i] == cat;
  }

  /** The rate computation of the tick: the equipment sum scaled by the manager,
      research and prestige multipliers. */
  method ComputeRate(owned: map<EquipmentId, nat>, hired: set<ManagerId>,
                     levels: map<ResearchId, nat>, prestigeBonus: nat) returns (cps: real)
    ensures cps == ProductionRate(owned, hired, levels, prestigeBonus)
  {
    cps := SumBaseCps(owned, EquipmentData());
    var multiplier := ManagerProduct(hired, ManagerData());
    var research := ResearchProduct(levels, ResearchData());
    multiplier := multiplier * research;
    multiplier := ApplyPrestige(prestigeBonus, multiplier);
    cps := cps * multiplier;
  }

  /** The prestige step of the tick: 1 + prestigeBonus / 100 when there is a bonus. */
  method ApplyPrestige(prestigeBonus: nat, multiplier0: real) returns (multiplier: real)
    ensures multiplier == multiplier0 * PrestigeMultiplier(prestigeBonus)
  {
    multiplier := multiplier0;
    if prestigeBonus > 0 {
      multiplier := multiplier * (1.0 + prestigeBonus as real / 100.0);
    }
  }

  class GameState {
    var coins: real
    var totalCoinsEarned: real
    var coinsPerSecond: real
    var clickPower: real
    var totalClicks: nat
    var goldenBlocks: nat
    var prestigeCount: nat
    var prestigeBonus: nat
    var equipment: map<EquipmentId, nat>
    var managers: set<ManagerId>
    var research: map<ResearchId, nat>
    var investments: map<CryptoId, Holding>
    var unlockedAchievements: seq<AchievementId>
    var profitTrades: nat
    var startTime: int
    var lastSave: int

    /** Balances are never negative, the click power is positive, a started
        research stays within its maximum level and no position has a negative
        average price. */
    ghost predicate FiguresValid()
      reads this
    {
      && coins >= 0.0
      && totalCoinsEarned >= 0.0
      && coinsPerSecond >= 0.0
      && clickPower > 0.0
      && LevelsWithinLimits(research)
      && PricesNonNegative(investments)
    }

    /** The figures are valid and no achievement is unlocked twice. */
    ghost predicate Valid()
      reads this
    {
      FiguresValid() && NoDuplicates(unlockedAchievements)
    }

    /** The figures the achievement predicates read. */
    function Snapshot(): Progress
      reads this
    {
      Progress(totalCoinsEarned, EquipmentTotal(equipment, EquipmentData()), totalClicks,
               |managers|, |research|, prestigeCount, profitTrades, startTime)
    }

    /** Puts every per-run field back to its value in a new game started at `now`. */
    method ResetRun(now: int)
      modifies this`coins, this`totalCoinsEarned, this`coinsPerSecond, this`clickPower,
               this`totalClicks, this`equipment, this`managers, this`research, this`investments,
               this`profitTrades, this`startTime, this`lastSave
      ensures coins == 10.0 && totalCoinsEarned == 10.0 && coinsPerSecond == 0.0 && clickPower == 1.0
      ensures totalClicks == 0 && profitTrades == 0
      ensures equipment == map[] && managers == {} && research == map[] && investments == map[]
      ensures startTime == now && lastSave == now
    {
      coins := 10.0;
      totalCoinsEarned := 10.0;
      coinsPerSecond := 0.0;
      clickPower := 1.0;
      totalClicks := 0;
      equipment := map[];
      managers := {};
      research := map[];
      investments := map[];
      profitTrades := 0;
      startTime := now;
      lastSave := now;
    }

    /** A new game at time `now`. */
    constructor (now: int)
      ensures Valid()
      ensures coins == 10.0 && totalCoinsEarned == 10.0 && coinsPerSecond == 0.0 && clickPower == 1.0
      ensures totalClicks == 0 && goldenBlocks == 0 && prestigeCount == 0 && prestigeBonus == 0
      ensures equipment == map[] && managers == {} && research == map[] && investments == map[]
      ensures unlockedAchievements == [] && profitTrades == 0 && startTime == now && lastSave == now
      ensures Snapshot() == NewGameProgress(now)
    {
      coins := 10.0;
      totalCoinsEarned := 10.0;
      coinsPerSecond := 0.0;
      clickPower := 1.0;
      totalClicks := 0;
      goldenBlocks := 0;
      prestigeCount := 0;
      prestigeBonus := 0;
      equipment := map[];
      managers := {};
      research := map[];
      investments := map[];
      unlockedAchievements := [];
      profitTrades := 0;
      startTime := now;
      lastSave := now;
      new;
      EquipmentTotalEmpty(EquipmentData());
    }

    /** One tenth of a second of production: the rate is recomputed from the
        equipment, managers, research and prestige bonus, and a tenth of it is
        added to the balance and to the lifetime total. */
    method Tick()
      requires Valid()
      modifies this`coins, this`totalCoinsEarned, this`coinsPerSecond
      ensures Valid()
      ensures coinsPerSecond == ProductionRate(equipment, managers, research, prestigeBonus)
      ensures coins == old(coins) + coinsPerSecond / 10.0
      ensures totalCoinsEarned == old(totalCoinsEarned) + coinsPerSecond / 10.0
      ensures old(totalCoinsEarned) <= totalCoinsEarned
    {
      var cps := ComputeRate(equipment, managers, research, prestigeBonus);
      ProductionRateAtLeastBase(equipment, managers, research, prestigeBonus);
      coins := coins + cps / 10.0;
      totalCoinsEarned := totalCoinsEarned + cps / 10.0;
      coinsPerSecond := cps;
    }

    /** A mining click. A manual click earns the click power and counts as a
        click; an automatic click with the junior manager hired earns the
        junior's 10 coins and is not counted. */
    method MineClick(isAuto: bool)
      requires FiguresValid()
      modifies this`coins, this`totalCoinsEarned, this`totalClicks
      ensures FiguresValid()
      ensures isAuto && Junior in managers ==>
        coins == old(coins) + 10.0 && totalCoinsEarned == old(totalCoinsEarned) + 10.0
      ensures !(isAuto && Junior in managers) ==>
        coins == old(coins) + clickPower && totalCoinsEarned == old(totalCoinsEarned) + clickPower
      ensures totalClicks == if isAuto then old(totalClicks) else old(totalClicks) + 1
    {
      var power := clickPower;
      if Junior in managers && isAuto {
        power := ManagerById(Junior).effect;
      }
      coins := coins + power;
      totalCoinsEarned := totalCoinsEarned + power;
      if !isAuto {
        totalClicks := totalClicks + 1;
      }
    }

    /** Buys one unit of equipment `id` at its current price, or does nothing when
        the balance does not cover that price. */
    method BuyEquipment(id: EquipmentId) returns (bought: bool)
      requires Valid()
      modifies this`coins, this`equipment
      ensures Valid()
      ensures var cost := EquipmentCost(EquipmentById(id), Count(old(equipment), id));
        && (bought <==> old(coins) >= cost as real)
        && (bought ==> coins == old(coins) - cost as real
                       && equipment == old(equipment)[id := Count(old(equipment), id) + 1])
        && (!bought ==> coins == old(coins) && equipment == old(equipment))
    {
      var owned := Count(equipment, id);
      var cost := EquipmentCost(EquipmentById(id), owned);
      if coins >= cost as real {
        coins := coins - cost as real;
        equipment := equipment[id := owned + 1];
        bought := true;
      } else {
        bought := false;
      }
    }

    /** Hires manager `id`, or does nothing when it is already hired or the
        balance does not cover its cost. */
    method HireManager(id: ManagerId) returns (hired: bool)
      requires Valid()
      modifies this`coins, this`managers
      ensures Valid()
      ensures hired <==> old(coins) >= ManagerById(id).cost as real && id !in old(managers)
      ensures hired ==> coins == old(coins) - ManagerById(id).cost as real && managers == old(managers) + {id}
      ensures !hired ==> coins == old(coins) && managers == old(managers)
    {
      var cost := ManagerById(id).cost;
      if coins >= cost as real && id !in managers {
        coins := coins - cost as real;
        managers := managers + {id};
        hired := true;
      } else {
        hired := false;
      }
    }

    /** Raises research `id` by one level, or does nothing when it is at its
        maximum level or the balance does not cover the price. */
    method BuyResearch(id: ResearchId) returns (bought: bool)
      requires Valid()
      modifies this`coins, this`research
      ensures Valid()
      ensures var level := Count(old(research), id);
        && (bought <==> level < ResearchById(id).maxLevel && old(coins) >= ResearchCost(ResearchById(id), level) as real)
        && (bought ==> coins == old(coins) - ResearchCost(ResearchById(id), level) as real
                       && research == old(research)[id := level + 1])
        && (!bought ==> coins == old(coins) && research == old(research))
    {
      var r := ResearchById(id);
      var level := Count(research, id);
      if level >= r.maxLevel {
        return false;
      }
      var cost := ResearchCost(r, level);
      if coins >= cost as real {
        coins := coins - cost as real;
        research := research[id := level + 1];
        bought := true;
      } else {
        bought := false;
      }
    }

    /** Buys `amount` units of coin `id` at the price quoted for the draw `u`,
        folding them into the position's average price, or does nothing when the
        balance does not cover the total. */
    method BuyCrypto(id: CryptoId, amount: nat, u: real) returns (bought: bool)
      requires Valid() && amount >= 1 && 0.0 <= u < 1.0
      modifies this`coins, this`investments
      ensures Valid()
      ensures var total := TradeValue(Quote(CryptoById(id), u), amount);
        && (bought <==> old(coins) >= total)
        && (bought ==> coins == old(coins) - total
                       && investments == old(investments)[id := MergeHolding(HoldingOf(old(investments), id), amount, total)])
        && (!bought ==> coins == old(coins) && investments == old(investments))
    {
      var price := Quote(CryptoById(id), u);
      var totalCost := TradeValue(price, amount);
      if coins >= totalCost {
        BuyKeepsPricesNonNegative(investments, id, amount, u);
        var merged := MergeHolding(HoldingOf(investments, id), amount, totalCost);
        coins := coins - totalCost;
        investments := investments[id := merged];
        bought := true;
      } else {
        bought := false;
      }
    }

    /** Sells `amount` units of coin `id` at the price quoted for the draw `u`,
        or does nothing when fewer units are held. A sale above the average
        purchase price counts as a profitable trade. */
    method SellCrypto(id: CryptoId, amount: nat, u: real) returns (sold: bool, profitable: bool)
      requires Valid() && amount >= 1 && 0.0 <= u < 1.0
      modifies this`coins, this`investments, this`profitTrades
      ensures Valid()
      ensures var h := HoldingOf(old(investments), id);
        var price := Quote(CryptoById(id), u);
        && (sold <==> h.amount >= amount)
        && (sold ==> coins == old(coins) + TradeValue(price, amount)
                     && investments == old(investments)[id := Holding(h.amount - amount, h.avgPrice)])
        && (profitable <==> sold && price > h.avgPrice)
        && profitTrades == (if profitable then old(profitTrades) + 1 else old(profitTrades))
        && (!sold ==> coins == old(coins) && investments == old(investments))
    {
      var h := HoldingOf(investments, id);
      if h.amount < amount {
        return false, false;
      }
      var price := Quote(CryptoById(id), u);
      var totalValue := TradeValue(price, amount);
      var profit := totalValue - TradeValue(h.avgPrice, amount);
      QuoteBounds(CryptoIndex(id), u);
      TradeValueNonNegative(price, amount);
      TradeValueCompare(price, h.avgPrice, amount);
      coins := coins + totalValue;
      if profit > 0.0 {
        profitTrades := profitTrades + 1;
      }
      investments := investments[id := Holding(h.amount - amount, h.avgPrice)];
      sold := true;
      profitable := profit > 0.0;
    }

    /** Prestige: with at least one golden block to earn, the run is reset to a
        new game at time `now` while golden blocks, prestige count and bonus carry
        forward and the unlocked achievements are kept; otherwise nothing changes. */
    method PerformPrestige(now: int) returns (reward: nat)
      requires Valid()
      modifies this`coins, this`totalCoinsEarned, this`coinsPerSecond, this`clickPower,
               this`totalClicks, this`goldenBlocks, this`prestigeCount, this`prestigeBonus,
               this`equipment, this`managers, this`research, this`investments,
               this`profitTrades, this`startTime, this`lastSave
      ensures Valid()
      ensures reward == PrestigeReward(old(totalCoinsEarned))
      ensures reward == 0 ==> unchanged(this)
      ensures reward > 0 ==>
        && goldenBlocks == old(goldenBlocks) + reward
        && prestigeCount == old(prestigeCount) + 1
        && prestigeBonus == goldenBlocks * 5
        && coins == 10.0 && totalCoinsEarned == 10.0 && coinsPerSecond == 0.0 && clickPower == 1.0
        && totalClicks == 0 && profitTrades == 0
        && equipment == map[] && managers == {} && research == map[] && investments == map[]
        && startTime == now && lastSave == now
    {
      reward := PrestigeReward(totalCoinsEarned);
      if reward <= 0 {
        return;
      }
      var blocks := goldenBlocks + reward;
      ResetRun(now);
      goldenBlocks := blocks;
      prestigeCount := prestigeCount + 1;
      prestigeBonus := blocks * 5;
    }

    /** The achievement pass over the figures `p` of a state whose unlock list was
        `seen`: every catalog achievement not in `seen` that `p` meets at time
        `now` is appended, in catalog order, and its reward is added. */
    method CheckAchievements(p: Progress, seen: seq<AchievementId>, now: int)
      modifies this`goldenBlocks, this`unlockedAchievements
      ensures unlockedAchievements == old(unlockedAchievements) + UnlockIds(AchievementData(), p, now, seen)
      ensures goldenBlocks == old(goldenBlocks) + UnlockReward(AchievementData(), p, now, seen)
    {
      var cat := AchievementData();
      var unlocked := unlockedAchievements;
      var blocks := goldenBlocks;
      var i := 0;
      while i < |cat|
        invariant 0 <= i <= |cat|
        invariant unlocked == old(unlockedAchievements) + UnlockIds(cat[..i], p, now, seen)
        invariant blocks == old(goldenBlocks) + UnlockReward(cat[..i], p, now, seen)
      {
        var a := cat[i];
        if a.id !in seen && Satisfied(a, p, now) {
          unlocked := unlocked + [a.id];
          blocks := blocks + a.reward;
        }
        UnlockPrefix(cat, p, now, seen, i);
        i := i + 1;
      }
      assert cat[..i] == cat;
      unlockedAchievements := unlocked;
      goldenBlocks := blocks;
    }

    /** One player command, without the achievement pass. It reports whether
        the source runs the pass after it: after a click, after a purchase or
        hire that went through, after a profitable sale and after a prestige;
        never after a coin purchase. */
    method Execute(cmd: Command, u: real, now: int) returns (check: bool)
      requires Valid() && 0.0 <= u < 1.0
      requires cmd.BuyCoins? || cmd.SellCoins? ==> cmd.amount >= 1
      modifies this`coins, this`totalCoinsEarned, this`coinsPerSecond, this`clickPower,
               this`totalClicks, this`goldenBlocks, this`prestigeCount, this`prestigeBonus,
               this`equipment, this`managers, this`research, this`investments,
               this`profitTrades, this`startTime, this`lastSave
      ensures Valid()
      ensures old(goldenBlocks) <= goldenBlocks
      ensures match cmd
        case Click(isAuto) =>
          && check
          && coins == old(coins) + (if isAuto && Junior in old(managers) then 10.0 else old(clickPower))
          && totalClicks == (if isAuto then old(totalClicks) else old(totalClicks) + 1)
        case PurchaseEquipment(id) =>
          check <==> old(coins) >= EquipmentCost(EquipmentById(id), Count(old(equipment), id)) as real
        case Hire(id) => check <==> old(coins) >= ManagerById(id).cost as real && id !in old(managers)
        case Study(id) =>
          check <==> Count(old(research), id) < ResearchById(id).maxLevel
                     && old(coins) >= ResearchCost(ResearchById(id), Count(old(research), id)) as real
        case BuyCoins(_, _) => !check
        case SellCoins(id, amount) =>
          check <==> HoldingOf(old(investments), id).amount >= amount
                     && Quote(CryptoById(id), u) > HoldingOf(old(investments), id).avgPrice
        case Prestige => check <==> old(totalCoinsEarned) >= 1000000.0
    {
      match cmd
      case Click(isAuto) =>
        MineClick(isAuto);
        check := true;
      case PurchaseEquipment(id) =>
        check := BuyEquipment(id);
      case Hire(id) =>
        check := HireManager(id);
      case Study(id) =>
        check := BuyResearch(id);
      case BuyCoins(id, amount) =>
        var _ := BuyCrypto(id, amount, u);
        check := false;
      case SellCoins(id, amount) =>
        var _, profitable := SellCrypto(id, amount, u);
        check := profitable;
      case Prestige =>
        var reward := PerformPrestige(now);
        PrestigeRewardPositive(old(totalCoinsEarned));
        check := reward > 0;
    }

    /** One player command followed, where the source runs it, by the
        achievement pass over the figures the command was issued against. The
        state stays valid, the unlock list only grows and golden blocks are
        never lost. */
    method Perform(cmd: Command, u: real, now: int) returns (check: bool)
      requires Valid() && 0.0 <= u < 1.0
      requires cmd.BuyCoins? || cmd.SellCoins? ==> cmd.amount >= 1
      modifies this
      ensures Valid()
      ensures cmd.Click? ==> check
      ensures cmd.BuyCoins? ==> !check
      ensures unlockedAchievements == old(unlockedAchievements)
        + (if check then UnlockIds(AchievementData(), old(Snapshot()), now, old(unlockedAchievements)) else [])
      ensures old(goldenBlocks) <= goldenBlocks
    {
      var p := Snapshot();
      var seen := unlockedAchievements;
      check := Execute(cmd, u, now);
      if check {
        CheckAchievements(p, seen, now);
        UnlockKeepsNoDuplicates(AchievementData(), p, now, seen);
      }
    }

    /** A click as the source wires it: the pass it runs reads the figures
        `first` and unlock list `firstSeen` of the game's first render, whatever
        the state is now. The click itself is the same as `MineClick`. */
    method MineClickAsWritten(isAuto: bool, first: Progress, firstSeen: seq<AchievementId>, now: int)
      requires FiguresValid()
      modifies this`coins, this`totalCoinsEarned, this`totalClicks, this`goldenBlocks, this`unlockedAchievements
      ensures FiguresValid()
      ensures isAuto && Junior in managers ==>
        coins == old(coins) + 10.0 && totalCoinsEarned == old(totalCoinsEarned) + 10.0
      ensures !(isAuto && Junior in managers) ==>
        coins == old(coins) + clickPower && totalCoinsEarned == old(totalCoinsEarned) + clickPower
      ensures totalClicks == if isAuto then old(totalClicks) else old(totalClicks) + 1
      ensures unlockedAchievements == old(unlockedAchievements) + UnlockIds(AchievementData(), first, now, firstSeen)
      ensures goldenBlocks == old(goldenBlocks) + UnlockReward(AchievementData(), first, now, firstSeen)
    {
      MineClick(isAuto);
      CheckAchievements(first, firstSeen, now);
    }
  }

  /** Two manual clicks on a new game, wired as the source wires them: both
      passes read the first render, so First Coin ends up listed twice. */
  method NewGameTwoClicksAsWritten(now: int) returns (g: GameState)
    ensures g.totalClicks == 2 && g.coins == 12.0
    ensures !NoDuplicates(g.unlockedAchievements)
  {
    g := new GameState(now);
    var first := g.Snapshot();
    var firstSeen := g.unlockedAchievements;
    assert first == NewGameProgress(now) && firstSeen == [];
    StaleClickRepeatsFirstCoin(now, now);
    var ids := UnlockIds(AchievementData(), first, now, firstSeen);
    g.MineClickAsWritten(false, first, firstSeen, now);
    assert g.unlockedAchievements == ids;
    g.MineClickAsWritten(false, first, firstSeen, now);
    assert g.unlockedAchievements == ids + ids;
  }
}
