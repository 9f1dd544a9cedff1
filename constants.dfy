// The static data of the dice-and-cards generation (js/constants.js): the
// classic 42-territory map with its adjacency lists and continents, the
// continent bonuses and the rule constants.
//
// A territory key is its position in the declaration order of
// `territoriesData` (which is the order `Object.keys` visits the string keys
// in), and each key has a named constant. `Tid` has exactly these 42 values,
// so an `adj` entry naming a key that does not exist could not be written
// down. Grid coordinates, display names and colours only place and paint the
// map and are not part of this model.
module Constants {
  import opened Util

  const CapitalReinforcementBonus: int := 2
  const TurnsToEntrench: int := 2
  const EntrenchmentDefenseBonus: int := 1

  /** The difficulty labels offered by the setup screen. */
  const AiDifficulties: seq<string> := ["Easy", "Normal", "Hard"]

  datatype Continent = NorthAmerica | SouthAmerica | Europe | Africa | Asia | Australia

  /** A key of `territoriesData`. */
  newtype Tid = i: int | 0 <= i < 42

  const Alaska: Tid := 0
  const NorthwestTerritory: Tid := 1
  const Greenland: Tid := 2
  const Alberta: Tid := 3
  const Ontario: Tid := 4
  const Quebec: Tid := 5
  const WesternUs: Tid := 6
  const EasternUs: Tid := 7
  const CentralAmerica: Tid := 8
  const Venezuela: Tid := 9
  const Peru: Tid := 10
  const Brazil: Tid := 11
  const Argentina: Tid := 12
  const Iceland: Tid := 13
  const Scandinavia: Tid := 14
  const GreatBritain: Tid := 15
  const NorthernEurope: Tid := 16
  const WesternEurope: Tid := 17
  const SouthernEurope: Tid := 18
  const Ukraine: Tid := 19
  const NorthAfrica: Tid := 20
  const Egypt: Tid := 21
  const EastAfrica: Tid := 22
  const Congo: Tid := 23
  const SouthAfrica: Tid := 24
  const Madagascar: Tid := 25
  const Ural: Tid := 26
  const Siberia: Tid := 27
  const Yakutsk: Tid := 28
  const Kamchatka: Tid := 29
  const Irkutsk: Tid := 30
  const Mongolia: Tid := 31
  const Japan: Tid := 32
  const Afghanistan: Tid := 33
  const China: Tid := 34
  const MiddleEast: Tid := 35
  const India: Tid := 36
  const Siam: Tid := 37
  const Indonesia: Tid := 38
  const NewGuinea: Tid := 39
  const WesternAustralia: Tid := 40
  const EasternAustralia: Tid := 41

  /** `Object.keys(territoriesData)`: every key, in declaration order. */
  function AllTerritories(): seq<Tid> {
    seq(42, i requires 0 <= i < 42 => i as Tid)
  }

  /** The `continent` field of each entry; the source declares the entries
      continent by continent. */
  function ContinentOf(t: Tid): Continent {
    if t <= CentralAmerica then NorthAmerica
    else if t <= Argentina then SouthAmerica
    else if t <= Ukraine then Europe
    else if t <= Madagascar then Africa
    else if t <= Siam then Asia
    else Australia
  }

  /** The `adj` list of each entry, in the order the source lists it. */
  function Adj(t: Tid): seq<Tid> {
    if t == Alaska then [Kamchatka, NorthwestTerritory, Alberta] else
    if t == NorthwestTerritory then [Alaska, Alberta, Ontario, Greenland] else
    if t == Greenland then [NorthwestTerritory, Ontario, Quebec, Iceland] else
    if t == Alberta then [Alaska, NorthwestTerritory, Ontario, WesternUs] else
    if t == Ontario then [NorthwestTerritory, Greenland, Quebec, EasternUs, WesternUs, Alberta] else
    if t == Quebec then [Greenland, Ontario, EasternUs] else
    if t == WesternUs then [Alberta, Ontario, EasternUs, CentralAmerica] else
    if t == EasternUs then [Ontario, Quebec, WesternUs, CentralAmerica] else
    if t == CentralAmerica then [WesternUs, EasternUs, Venezuela] else
    if t == Venezuela then [CentralAmerica, Peru, Brazil] else
    if t == Peru then [Venezuela, Brazil, Argentina] else
    if t == Brazil then [Venezuela, Peru, Argentina, NorthAfrica] else
    if t == Argentina then [Peru, Brazil] else
    if t == Iceland then [Greenland, GreatBritain, Scandinavia] else
    if t == Scandinavia then [Iceland, GreatBritain, NorthernEurope, Ukraine, Siberia] else
    if t == GreatBritain then [Iceland, Scandinavia, NorthernEurope, WesternEurope] else
    if t == NorthernEurope then [GreatBritain, Scandinavia, WesternEurope, SouthernEurope, Ukraine] else
    if t == WesternEurope then [GreatBritain, NorthernEurope, SouthernEurope, NorthAfrica] else
    if t == SouthernEurope then [NorthernEurope, WesternEurope, Ukraine, MiddleEast, Egypt, NorthAfrica] else
    if t == Ukraine then [Scandinavia, NorthernEurope, SouthernEurope, Ural, Afghanistan, MiddleEast] else
    if t == NorthAfrica then [Brazil, WesternEurope, SouthernEurope, Egypt, EastAfrica, Congo] else
    if t == Egypt then [SouthernEurope, NorthAfrica, EastAfrica, MiddleEast] else
    if t == EastAfrica then [Egypt, NorthAfrica, Congo, SouthAfrica, Madagascar, MiddleEast] else
    if t == Congo then [NorthAfrica, EastAfrica, SouthAfrica] else
    if t == SouthAfrica then [Congo, EastAfrica, Madagascar] else
    if t == Madagascar then [SouthAfrica, EastAfrica] else
    if t == Ural then [Ukraine, Siberia, China, Afghanistan] else
    if t == Siberia then [Ural, Yakutsk, Irkutsk, Mongolia, China, Scandinavia] else
    if t == Yakutsk then [Siberia, Irkutsk, Kamchatka] else
    if t == Kamchatka then [Yakutsk, Irkutsk, Mongolia, Japan, Alaska] else
    if t == Irkutsk then [Siberia, Yakutsk, Kamchatka, Mongolia] else
    if t == Mongolia then [Siberia, Irkutsk, Kamchatka, Japan, China] else
    if t == Japan then [Kamchatka, Mongolia] else
    if t == Afghanistan then [Ukraine, Ural, China, India, MiddleEast] else
    if t == China then [Afghanistan, Ural, Siberia, Mongolia, Siam, India] else
    if t == MiddleEast then [SouthernEurope, Ukraine, Afghanistan, India, EastAfrica, Egypt] else
    if t == India then [MiddleEast, Afghanistan, China, Siam] else
    if t == Siam then [India, China, Indonesia] else
    if t == Indonesia then [Siam, NewGuinea, WesternAustralia] else
    if t == NewGuinea then [Indonesia, EasternAustralia, WesternAustralia] else
    if t == WesternAustralia then [Indonesia, EasternAustralia, NewGuinea] else
    [NewGuinea, WesternAustralia]
  }

  /** `Object.keys(continentsData)`, in declaration order. */
  const AllContinents: seq<Continent> := [NorthAmerica, SouthAmerica, Europe, Africa, Asia, Australia]

  /** The `bonus` field of `continentsData`. */
  function Bonus(c: Continent): nat {
    match c
    case NorthAmerica => 5
    case SouthAmerica => 2
    case Europe => 5
    case Africa => 3
    case Asia => 7
    case Australia => 2
  }

  /** The elements of `ts` that lie in continent `c`, in order. */
  function InContinent(ts: seq<Tid>, c: Continent): (r: seq<Tid>)
    ensures forall t :: t in r <==> t in ts && ContinentOf(t) == c
    ensures |r| <= |ts|
  {
    if ts == [] then []
    else if ContinentOf(ts[|ts| - 1]) == c then InContinent(ts[..|ts| - 1], c) + [ts[|ts| - 1]]
    else InContinent(ts[..|ts| - 1], c)
  }

  /** `Object.keys(territoriesData).filter(tId => territoriesData[tId].continent === c)`. */
  function Members(c: Continent): (r: seq<Tid>)
    ensures forall t :: t in r <==> ContinentOf(t) == c
  {
    AllTerritoriesExact();
    InContinent(AllTerritories(), c)
  }

  /** The map has 42 territories, each key listed exactly once. */
  lemma AllTerritoriesExact()
    ensures |AllTerritories()| == 42
    ensures NoDup(AllTerritories())
    ensures forall t :: t in AllTerritories()
  {
    forall t ensures t in AllTerritories() {
      assert AllTerritories()[t as int] == t;
    }
  }

  /** The six continents are distinct and every territory's continent is one of them. */
  lemma AllContinentsExact()
    ensures |AllContinents| == 6 && NoDup(AllContinents)
    ensures forall t :: ContinentOf(t) in AllContinents
  {
  }

  /** Every link is listed from both ends, including the Siberia and
      Scandinavia entries that complete the crossing between them. */
  lemma AdjacencySymmetric(a: Tid, b: Tid)
    requires b in Adj(a)
    ensures a in Adj(b)
  {
    LinksOf(a);
  }

  /** No territory lists itself, and no list names a neighbour twice. */
  lemma AdjacencyIrreflexive(t: Tid)
    ensures t !in Adj(t)
    ensures NoDup(Adj(t))
  {
    LinksOf(t);
  }

  /** Both facts for one territory, taken from the per-territory lemmas below
      so that each proof obligation stays small. */
  lemma LinksOf(a: Tid)
    ensures a !in Adj(a) && NoDup(Adj(a))
    ensures forall b :: b in Adj(a) ==> a in Adj(b)
  {
    if a == Alaska { AlaskaLinks(); } else
    if a == NorthwestTerritory { NorthwestTerritoryLinks(); } else
    if a == Greenland { GreenlandLinks(); } else
    if a == Alberta { AlbertaLinks(); } else
    if a == Ontario { OntarioLinks(); } else
    if a == Quebec { QuebecLinks(); } else
    if a == WesternUs { WesternUsLinks(); } else
    if a == EasternUs { EasternUsLinks(); } else
    if a == CentralAmerica { CentralAmericaLinks(); } else
    if a == Venezuela { VenezuelaLinks(); } else
    if a == Peru { PeruLinks(); } else
    if a == Brazil { BrazilLinks(); } else
    if a == Argentina { ArgentinaLinks(); } else
    if a == Iceland { IcelandLinks(); } else
    if a == Scandinavia { ScandinaviaLinks(); } else
    if a == GreatBritain { GreatBritainLinks(); } else
    if a == NorthernEurope { NorthernEuropeLinks(); } else
    if a == WesternEurope { WesternEuropeLinks(); } else
    if a == SouthernEurope { SouthernEuropeLinks(); } else
    if a == Ukraine { UkraineLinks(); } else
    if a == NorthAfrica { NorthAfricaLinks(); } else
    if a == Egypt { EgyptLinks(); } else
    if a == EastAfrica { EastAfricaLinks(); } else
    if a == Congo { CongoLinks(); } else
    if a == SouthAfrica { SouthAfricaLinks(); } else
    if a == Madagascar { MadagascarLinks(); } else
    if a == Ural { UralLinks(); } else
    if a == Siberia { SiberiaLinks(); } else
    if a == Yakutsk { YakutskLinks(); } else
    if a == Kamchatka { KamchatkaLinks(); } else
    if a == Irkutsk { IrkutskLinks(); } else
    if a == Mongolia { MongoliaLinks(); } else
    if a == Japan { JapanLinks(); } else
    if a == Afghanistan { AfghanistanLinks(); } else
    if a == China { ChinaLinks(); } else
    if a == MiddleEast { MiddleEastLinks(); } else
    if a == India { IndiaLinks(); } else
    if a == Siam { SiamLinks(); } else
    if a == Indonesia { IndonesiaLinks(); } else
    if a == NewGuinea { NewGuineaLinks(); } else
    if a == WesternAustralia { WesternAustraliaLinks(); } else
    { EasternAustraliaLinks(); }
  }

  lemma AlaskaLinks()
    ensures Alaska !in Adj(Alaska) && NoDup(Adj(Alaska))
    ensures forall b :: b in Adj(Alaska) ==> Alaska in Adj(b)
  {
  }
  lemma NorthwestTerritoryLinks()
    ensures NorthwestTerritory !in Adj(NorthwestTerritory) && NoDup(Adj(NorthwestTerritory))
    ensures forall b :: b in Adj(NorthwestTerritory) ==> NorthwestTerritory in Adj(b)
  {
  }
  lemma GreenlandLinks()
    ensures Greenland !in Adj(Greenland) && NoDup(Adj(Greenland))
    ensures forall b :: b in Adj(Greenland) ==> Greenland in Adj(b)
  {
  }
  lemma AlbertaLinks()
    ensures Alberta !in Adj(Alberta) && NoDup(Adj(Alberta))
    ensures forall b :: b in Adj(Alberta) ==> Alberta in Adj(b)
  {
  }
  lemma OntarioLinks()
    ensures Ontario !in Adj(Ontario) && NoDup(Adj(Ontario))
    ensures forall b :: b in Adj(Ontario) ==> Ontario in Adj(b)
  {
  }
  lemma QuebecLinks()
    ensures Quebec !in Adj(Quebec) && NoDup(Adj(Quebec))
    ensures forall b :: b in Adj(Quebec) ==> Quebec in Adj(b)
  {
  }
  lemma WesternUsLinks()
    ensures WesternUs !in Adj(WesternUs) && NoDup(Adj(WesternUs))
    ensures forall b :: b in Adj(WesternUs) ==> WesternUs in Adj(b)
  {
  }
  lemma EasternUsLinks()
    ensures EasternUs !in Adj(EasternUs) && NoDup(Adj(EasternUs))
    ensures forall b :: b in Adj(EasternUs) ==> EasternUs in Adj(b)
  {
  }
  lemma CentralAmericaLinks()
    ensures CentralAmerica !in Adj(CentralAmerica) && NoDup(Adj(CentralAmerica))
    ensures forall b :: b in Adj(CentralAmerica) ==> CentralAmerica in Adj(b)
  {
  }
  lemma VenezuelaLinks()
    ensures Venezuela !in Adj(Venezuela) && NoDup(Adj(Venezuela))
    ensures forall b :: b in Adj(Venezuela) ==> Venezuela in Adj(b)
  {
  }
  lemma PeruLinks()
    ensures Peru !in Adj(Peru) && NoDup(Adj(Peru))
    ensures forall b :: b in Adj(Peru) ==> Peru in Adj(b)
  {
  }
  lemma BrazilLinks()
    ensures Brazil !in Adj(Brazil) && NoDup(Adj(Brazil))
    ensures forall b :: b in Adj(Brazil) ==> Brazil in Adj(b)
  {
  }
  lemma ArgentinaLinks()
    ensures Argentina !in Adj(Argentina) && NoDup(Adj(Argentina))
    ensures forall b :: b in Adj(Argentina) ==> Argentina in Adj(b)
  {
  }
  lemma IcelandLinks()
    ensures Iceland !in Adj(Iceland) && NoDup(Adj(Iceland))
    ensures forall b :: b in Adj(Iceland) ==> Iceland in Adj(b)
  {
  }
  lemma ScandinaviaLinks()
    ensures Scandinavia !in Adj(Scandinavia) && NoDup(Adj(Scandinavia))
    ensures forall b :: b in Adj(Scandinavia) ==> Scandinavia in Adj(b)
  {
  }
  lemma GreatBritainLinks()
    ensures GreatBritain !in Adj(GreatBritain) && NoDup(Adj(GreatBritain))
    ensures forall b :: b in Adj(GreatBritain) ==> GreatBritain in Adj(b)
  {
  }
  lemma NorthernEuropeLinks()
    ensures NorthernEurope !in Adj(NorthernEurope) && NoDup(Adj(NorthernEurope))
    ensures forall b :: b in Adj(NorthernEurope) ==> NorthernEurope in Adj(b)
  {
  }
  lemma WesternEuropeLinks()
    ensures WesternEurope !in Adj(WesternEurope) && NoDup(Adj(WesternEurope))
    ensures forall b :: b in Adj(WesternEurope) ==> WesternEurope in Adj(b)
  {
  }
  lemma SouthernEuropeLinks()
    ensures SouthernEurope !in Adj(SouthernEurope) && NoDup(Adj(SouthernEurope))
    ensures forall b :: b in Adj(SouthernEurope) ==> SouthernEurope in Adj(b)
  {
  }
  lemma UkraineLinks()
    ensures Ukraine !in Adj(Ukraine) && NoDup(Adj(Ukraine))
    ensures forall b :: b in Adj(Ukraine) ==> Ukraine in Adj(b)
  {
  }
  lemma NorthAfricaLinks()
    ensures NorthAfrica !in Adj(NorthAfrica) && NoDup(Adj(NorthAfrica))
    ensures forall b :: b in Adj(NorthAfrica) ==> NorthAfrica in Adj(b)
  {
  }
  lemma EgyptLinks()
    ensures Egypt !in Adj(Egypt) && NoDup(Adj(Egypt))
    ensures forall b :: b in Adj(Egypt) ==> Egypt in Adj(b)
  {
  }
  lemma EastAfricaLinks()
    ensures EastAfrica !in Adj(EastAfrica) && NoDup(Adj(EastAfrica))
    ensures forall b :: b in Adj(EastAfrica) ==> EastAfrica in Adj(b)
  {
  }
  lemma CongoLinks()
    ensures Congo !in Adj(Congo) && NoDup(Adj(Congo))
    ensures forall b :: b in Adj(Congo) ==> Congo in Adj(b)
  {
  }
  lemma SouthAfricaLinks()
    ensures SouthAfrica !in Adj(SouthAfrica) && NoDup(Adj(SouthAfrica))
    ensures forall b :: b in Adj(SouthAfrica) ==> SouthAfrica in Adj(b)
  {
  }
  lemma MadagascarLinks()
    ensures Madagascar !in Adj(Madagascar) && NoDup(Adj(Madagascar))
    ensures forall b :: b in Adj(Madagascar) ==> Madagascar in Adj(b)
  {
  }
  lemma UralLinks()
    ensures Ural !in Adj(Ural) && NoDup(Adj(Ural))
    ensures forall b :: b in Adj(Ural) ==> Ural in Adj(b)
  {
  }
  lemma SiberiaLinks()
    ensures Siberia !in Adj(Siberia) && NoDup(Adj(Siberia))
    ensures forall b :: b in Adj(Siberia) ==> Siberia in Adj(b)
  {
  }
  lemma YakutskLinks()
    ensures Yakutsk !in Adj(Yakutsk) && NoDup(Adj(Yakutsk))
    ensures forall b :: b in Adj(Yakutsk) ==> Yakutsk in Adj(b)
  {
  }
  lemma KamchatkaLinks()
    ensures Kamchatka !in Adj(Kamchatka) && NoDup(Adj(Kamchatka))
    ensures forall b :: b in Adj(Kamchatka) ==> Kamchatka in Adj(b)
  {
  }
  lemma IrkutskLinks()
    ensures Irkutsk !in Adj(Irkutsk) && NoDup(Adj(Irkutsk))
    ensures forall b :: b in Adj(Irkutsk) ==> Irkutsk in Adj(b)
  {
  }
  lemma MongoliaLinks()
    ensures Mongolia !in Adj(Mongolia) && NoDup(Adj(Mongolia))
    ensures forall b :: b in Adj(Mongolia) ==> Mongolia in Adj(b)
  {
  }
  lemma JapanLinks()
    ensures Japan !in Adj(Japan) && NoDup(Adj(Japan))
    ensures forall b :: b in Adj(Japan) ==> Japan in Adj(b)
  {
  }
  lemma AfghanistanLinks()
    ensures Afghanistan !in Adj(Afghanistan) && NoDup(Adj(Afghanistan))
    ensures forall b :: b in Adj(Afghanistan) ==> Afghanistan in Adj(b)
  {
  }
  lemma ChinaLinks()
    ensures China !in Adj(China) && NoDup(Adj(China))
    ensures forall b :: b in Adj(China) ==> China in Adj(b)
  {
  }
  lemma MiddleEastLinks()
    ensures MiddleEast !in Adj(MiddleEast) && NoDup(Adj(MiddleEast))
    ensures forall b :: b in Adj(MiddleEast) ==> MiddleEast in Adj(b)
  {
  }
  lemma IndiaLinks()
    ensures India !in Adj(India) && NoDup(Adj(India))
    ensures forall b :: b in Adj(India) ==> India in Adj(b)
  {
  }
  lemma SiamLinks()
    ensures Siam !in Adj(Siam) && NoDup(Adj(Siam))
    ensures forall b :: b in Adj(Siam) ==> Siam in Adj(b)
  {
  }
  lemma IndonesiaLinks()
    ensures Indonesia !in Adj(Indonesia) && NoDup(Adj(Indonesia))
    ensures forall b :: b in Adj(Indonesia) ==> Indonesia in Adj(b)
  {
  }
  lemma NewGuineaLinks()
    ensures NewGuinea !in Adj(NewGuinea) && NoDup(Adj(NewGuinea))
    ensures forall b :: b in Adj(NewGuinea) ==> NewGuinea in Adj(b)
  {
  }
  lemma WesternAustraliaLinks()
    ensures WesternAustralia !in Adj(WesternAustralia) && NoDup(Adj(WesternAustralia))
    ensures forall b :: b in Adj(WesternAustralia) ==> WesternAustralia in Adj(b)
  {
  }
  lemma EasternAustraliaLinks()
    ensures EasternAustralia !in Adj(EasternAustralia) && NoDup(Adj(EasternAustralia))
    ensures forall b :: b in Adj(EasternAustralia) ==> EasternAustralia in Adj(b)
  {
  }
}
