/**
 * The game's static reference data: equipment, managers, research, tradable
 * coins and achievements, each catalog a constant sequence in declaration
 * order. Every catalog id is a constructor of that catalog's id type, so a
 * lookup by id always finds its entry. Display-only attributes (names, icons,
 * descriptions, symbols) are omitted.
 */
module Catalog {

  datatype EquipmentId =
    | Laptop | Desktop | Gaming | Asic
    | Farm | Warehouse | Complex | Cooling
    | Datacenter | Serverfarm | Blockchain | Quantum
    | Ai | Satellite | Lunar | Mars
    | Station | Dyson | Multiverse | Time
  datatype Equipment = Equipment(id: EquipmentId, baseCost: nat, baseCps: real, tier: nat)

  datatype ManagerId = Junior | Senior | Director | Ceo | QuantumAi
  datatype ManagerKind = AutoClick | Multiplier
  datatype Manager = Manager(id: ManagerId, cost: nat, effect: real, kind: ManagerKind)

  datatype ResearchId = Efficiency | Overclock | Cooling | Energy | Network | QuantumTech
  datatype ResearchKind = CpsBoost | OfflineBoost | PrestigeBoost
  datatype Research = Research(id: ResearchId, baseCost: nat, maxLevel: nat, effect: real, kind: ResearchKind)

  datatype CryptoId = Btc | Eth | Doge | Moon | Qtm
  datatype Crypto = Crypto(id: CryptoId, basePrice: real, volatility: real)

  datatype AchievementId =
    | First | Hundred | Thousand | Million | Billion | Trillion
    | FirstEquip | Collector | Tycoon | Empire
    | Clicker | HyperClicker | Automation | Researcher
    | Prestige1 | Prestige5 | Prestige10 | Investor | Trader | Speedrun
  /** The eight predicate kinds handled by the achievement pass. */
  datatype AchievementKind =
    | ByCoins | ByEquipment | ByClicks | ByManagers
    | ByResearch | ByPrestige | ByProfitTrades | BySpeedRun
  datatype Achievement = Achievement(id: AchievementId, requirement: nat, kind: AchievementKind, reward: nat)

  function EquipmentData(): (cat: seq<Equipment>)
    ensures |cat| == 20
    ensures forall i, j :: 0 <= i < j < |cat| ==> cat[i].id != cat[j].id
    ensures forall i :: 0 <= i < |cat| ==> cat[i].baseCost >= 10 && cat[i].baseCps >= 0.0
    ensures forall i :: 0 <= i < |cat| - 1 ==> cat[i].tier <= cat[i + 1].tier
  {
    [ Equipment(Laptop, 10, 0.1, 1),
      Equipment(Desktop, 50, 0.5, 1),
      Equipment(Gaming, 200, 2.0, 1),
      Equipment(Asic, 1000, 10.0, 1),
      Equipment(Farm, 5000, 50.0, 2),
      Equipment(Warehouse, 25000, 250.0, 2),
      Equipment(Complex, 125000, 1200.0, 2),
      Equipment(EquipmentId.Cooling, 625000, 6000.0, 2),
      Equipment(Datacenter, 3000000, 30000.0, 3),
      Equipment(Serverfarm, 15000000, 150000.0, 3),
      Equipment(Blockchain, 75000000, 750000.0, 3),
      Equipment(Quantum, 375000000, 3750000.0, 3),
      Equipment(Ai, 1875000000, 18750000.0, 4),
      Equipment(Satellite, 9375000000, 93750000.0, 4),
      Equipment(Lunar, 46875000000, 468750000.0, 4),
      Equipment(Mars, 234375000000, 2343750000.0, 4),
      Equipment(Station, 1171875000000, 11718750000.0, 5),
      Equipment(Dyson, 5859375000000, 58593750000.0, 5),
      Equipment(Multiverse, 29296875000000, 292968750000.0, 5),
      Equipment(Time, 146484375000000, 1464843750000.0, 5) ]
  }

  function ManagerData(): (cat: seq<Manager>)
    ensures |cat| == 5
    ensures forall i, j :: 0 <= i < j < |cat| ==> cat[i].id != cat[j].id
    ensures forall i :: 0 <= i < |cat| ==> (cat[i].kind == AutoClick <==> cat[i].id == Junior)
    ensures forall i :: 0 <= i < |cat| ==> cat[i].effect >= 1.0
  {
    [ Manager(Junior, 1000, 10.0, AutoClick),
      Manager(Senior, 50000, 2.0, Multiplier),
      Manager(Director, 1000000, 3.0, Multiplier),
      Manager(Ceo, 50000000, 5.0, Multiplier),
      Manager(QuantumAi, 1000000000, 10.0, Multiplier) ]
  }

  function ResearchData(): (cat: seq<Research>)
    ensures |cat| == 6
    ensures forall i, j :: 0 <= i < j < |cat| ==> cat[i].id != cat[j].id
    ensures forall i :: 0 <= i < |cat| ==> cat[i].maxLevel > 0 && cat[i].baseCost > 0 && cat[i].effect >= 0.0
  {
    [ Research(Efficiency, 500, 20, 0.1, CpsBoost),
      Research(Overclock, 2000, 15, 0.15, CpsBoost),
      Research(ResearchId.Cooling, 10000, 10, 0.2, CpsBoost),
      Research(Energy, 50000, 10, 0.25, CpsBoost),
      Research(Network, 100000, 5, 0.5, OfflineBoost),
      Research(QuantumTech, 1000000, 5, 0.1, PrestigeBoost) ]
  }

  function CryptoData(): (cat: seq<Crypto>)
    ensures |cat| == 5
    ensures forall i, j :: 0 <= i < j < |cat| ==> cat[i].id != cat[j].id
    ensures forall i :: 0 <= i < |cat| ==> cat[i].basePrice > 0.0 && 0.0 <= cat[i].volatility < 1.0
  {
    [ Crypto(Btc, 1000.0, 0.02),
      Crypto(Eth, 500.0, 0.05),
      Crypto(Doge, 100.0, 0.15),
      Crypto(Moon, 50.0, 0.30),
      Crypto(Qtm, 2000.0, 0.10) ]
  }

  function AchievementData(): (cat: seq<Achievement>)
    ensures |cat| == 20
    ensures forall i, j :: 0 <= i < j < |cat| ==> cat[i].id != cat[j].id
    ensures forall i :: 0 <= i < |cat| ==> cat[i].reward > 0
    ensures forall i :: 0 <= i < |cat| && cat[i].kind == ByManagers ==> cat[i].requirement == |ManagerData()|
    ensures forall i :: 0 <= i < |cat| && cat[i].kind == ByResearch ==> cat[i].requirement == |ResearchData()|
  {
    [ Achievement(First, 1, ByCoins, 1),
      Achievement(Hundred, 1000, ByCoins, 2),
      Achievement(Thousand, 100000, ByCoins, 3),
      Achievement(Million, 1000000, ByCoins, 5),
      Achievement(Billion, 1000000000, ByCoins, 10),
      Achievement(Trillion, 1000000000000, ByCoins, 25),
      Achievement(FirstEquip, 1, ByEquipment, 1),
      Achievement(Collector, 100, ByEquipment, 3),
      Achievement(Tycoon, 500, ByEquipment, 10),
      Achievement(Empire, 1000, ByEquipment, 20),
      Achievement(Clicker, 1000, ByClicks, 2),
      Achievement(HyperClicker, 10000, ByClicks, 5),
      Achievement(Automation, 5, ByManagers, 5),
      Achievement(Researcher, 6, ByResearch, 10),
      Achievement(Prestige1, 1, ByPrestige, 10),
      Achievement(Prestige5, 5, ByPrestige, 15),
      Achievement(Prestige10, 10, ByPrestige, 25),
      Achievement(Investor, 1, ByProfitTrades, 3),
      Achievement(Trader, 50, ByProfitTrades, 10),
      Achievement(Speedrun, 1, BySpeedRun, 15) ]
  }

  /** Position of `id` in its catalog; together with the lookups below it plays
      the role of the source's `data.find(x => x.id === id)`, which always finds
      a catalog id. */
  function EquipmentIndex(id: EquipmentId): (k: nat)
    ensures k < |EquipmentData()| && EquipmentData()[k].id == id
  {
    match id
    case Laptop => 0       case Desktop => 1      case Gaming => 2       case Asic => 3
    case Farm => 4         case Warehouse => 5    case Complex => 6      case Cooling => 7
    case Datacenter => 8   case Serverfarm => 9   case Blockchain => 10  case Quantum => 11
    case Ai => 12          case Satellite => 13   case Lunar => 14       case Mars => 15
    case Station => 16     case Dyson => 17       case Multiverse => 18  case Time => 19
  }

  function ManagerIndex(id: ManagerId): (k: nat)
    ensures k < |ManagerData()| && ManagerData()[k].id == id
  {
    match id
    case Junior => 0  case Senior => 1  case Director => 2  case Ceo => 3  case QuantumAi => 4
  }

  function ResearchIndex(id: ResearchId): (k: nat)
    ensures k < |ResearchData()| && ResearchData()[k].id == id
  {
    match id
    case Efficiency => 0  case Overclock => 1  case Cooling => 2
    case Energy => 3      case Network => 4    case QuantumTech => 5
  }

  function CryptoIndex(id: CryptoId): (k: nat)
    ensures k < |CryptoData()| && CryptoData()[k].id == id
  {
    match id
    case Btc => 0  case Eth => 1  case Doge => 2  case Moon => 3  case Qtm => 4
  }

  function AchievementIndex(id: AchievementId): (k: nat)
    ensures k < |AchievementData()| && AchievementData()[k].id == id
  {
    match id
    case First => 0  case Hundred => 1  case Thousand => 2  case Million => 3  case Billion => 4
    case Trillion => 5  case FirstEquip => 6  case Collector => 7  case Tycoon => 8  case Empire => 9
    case Clicker => 10  case HyperClicker => 11  case Automation => 12  case Researcher => 13
    case Prestige1 => 14  case Prestige5 => 15  case Prestige10 => 16  case Investor => 17
    case Trader => 18  case Speedrun => 19
  }

  function EquipmentById(id: EquipmentId): Equipment { EquipmentData()[EquipmentIndex(id)] }
  function ManagerById(id: ManagerId): Manager { ManagerData()[ManagerIndex(id)] }
  function ResearchById(id: ResearchId): Research { ResearchData()[ResearchIndex(id)] }
  function CryptoById(id: CryptoId): Crypto { CryptoData()[CryptoIndex(id)] }
  function AchievementById(id: AchievementId): Achievement { AchievementData()[AchievementIndex(id)] }
}
