/** Power-delivery estimator of the SMR siting dashboard for Myanmar: the
    static tables of candidate sites and load centers, the lookup of the
    Yangon hub, the transmission-efficiency curve, the split of the energy
    delivered to the hub into what the hub absorbs and the surplus, the
    display rounding of that estimate, and the two classifiers used by the
    site panels. All numbers of the source are modelled as exact `real`s. */
module SmrData {

  datatype Option<+T> = None | Some(value: T)

  // ---------------------------------------------------------------------
  // Constants
  // ---------------------------------------------------------------------

  /** Nameplate capacity of one SMR, in MW. */
  const SmrCapacityMW: int := 300

  /** Energy one SMR generates per day at full output, in MWh. */
  const DailyGenerationTarget: real := 7200.0

  lemma DailyTargetIsOneDayAtCapacity()
    ensures DailyGenerationTarget == (SmrCapacityMW * 24) as real
  {
  }

  // ---------------------------------------------------------------------
  // Static tables
  // ---------------------------------------------------------------------

  /** The four seismic-risk categories a candidate site can have. */
  datatype Seismic = Low | Moderate | ModerateHigh | High

  /** A candidate reactor site; `isPreferred` is false where the source
      leaves the optional flag out. */
  datatype CandidateSite = CandidateSite(
    id: string,
    name: string,
    lat: real,
    lng: real,
    water: int,
    seismic: Seismic,
    isPreferred: bool)

  /** A demand center with its daily demand and its rank (1 = highest). */
  datatype LoadCenter = LoadCenter(
    id: string,
    name: string,
    lat: real,
    lng: real,
    demandMWh: real,
    priority: int)

  const CandidateSites: seq<CandidateSite> := [
    CandidateSite("dawei", "Dawei", 14.08, 98.20, 10, Low, true),
    CandidateSite("ye", "Ye", 15.25, 97.85, 8, Moderate, false),
    CandidateSite("naypyidaw-site", "Naypyidaw", 19.76, 96.07, 4, ModerateHigh, false),
    CandidateSite("mawlamyine-site", "Mawlamyine", 16.49, 97.63, 7, Moderate, false)
  ]

  const LoadCenters: seq<LoadCenter> := [
    LoadCenter("yangon", "Yangon (Thilawa)", 16.63, 96.27, 3200.0, 1),
    LoadCenter("mandalay", "Mandalay", 21.98, 96.08, 2035.2, 2),
    LoadCenter("naypyidaw", "Naypyidaw", 19.76, 96.07, 550.0, 3),
    LoadCenter("mawlamyine", "Mawlamyine", 16.49, 97.63, 120.0, 4),
    LoadCenter("bago", "Bago", 17.32, 96.47, 100.0, 5),
    LoadCenter("pathein", "Pathein", 16.78, 94.74, 70.0, 6),
    LoadCenter("dawei", "Dawei", 14.08, 98.20, 55.0, 7),
    LoadCenter("taunggyi", "Taunggyi", 20.78, 97.03, 24.167, 8)
  ]

  predicate ValidCoordinates(lat: real, lng: real) {
    -90.0 <= lat <= 90.0 && -180.0 <= lng <= 180.0
  }

  /** Every record of both tables lies on the globe, every water score is
      on the 1-10 scale and every demand is non-negative. */
  lemma TablesAreWellFormed()
    ensures forall i :: 0 <= i < |CandidateSites| ==>
      ValidCoordinates(CandidateSites[i].lat, CandidateSites[i].lng)
      && 1 <= CandidateSites[i].water <= 10
    ensures forall i :: 0 <= i < |LoadCenters| ==>
      ValidCoordinates(LoadCenters[i].lat, LoadCenters[i].lng)
      && 0.0 <= LoadCenters[i].demandMWh
  {
  }

  /** Load-center ids are unique and so are the priority ranks. */
  lemma LoadCenterKeysAreUnique()
    ensures forall i, j :: 0 <= i < j < |LoadCenters| ==>
      LoadCenters[i].id != LoadCenters[j].id
      && LoadCenters[i].priority != LoadCenters[j].priority
  {
  }

  // ---------------------------------------------------------------------
  // The Yangon hub
  // ---------------------------------------------------------------------

  /** The first load center whose id is `id`, as `Array.prototype.find`
      gives it, or None when there is none. */
  function FindLoadCenter(centers: seq<LoadCenter>, id: string): (found: Option<LoadCenter>)
    ensures found.None? <==> forall i :: 0 <= i < |centers| ==> centers[i].id != id
    ensures found.Some? ==>
      exists i :: (0 <= i < |centers| && centers[i] == found.value && centers[i].id == id
        && forall j :: 0 <= j < i ==> centers[j].id != id)
  {
    if |centers| == 0 then None
    else if centers[0].id == id then Some(centers[0])
    else FindLoadCenter(centers[1..], id)
  }

  /** The primary destination of every estimate: the lookup of "yangon"
      always succeeds, so the source's non-null assertion never fails. */
  function YangonHub(): (hub: LoadCenter)
    ensures hub == LoadCenters[0]
    ensures hub.id == "yangon" && hub.demandMWh == 3200.0 && hub.priority == 1
  {
    var found := FindLoadCenter(LoadCenters, "yangon");
    assert LoadCenters[0].id == "yangon";
    found.value
  }

  /** The hub has the highest priority of all load centers, and it is the
      only one with that rank. */
  lemma HubIsTheTopPriorityCenter()
    ensures forall i :: 0 <= i < |LoadCenters| ==> YangonHub().priority <= LoadCenters[i].priority
    ensures forall i :: 0 <= i < |LoadCenters| && LoadCenters[i].priority == 1 ==> LoadCenters[i] == YangonHub()
  {
  }

  // ---------------------------------------------------------------------
  // Transmission efficiency
  // ---------------------------------------------------------------------

  function Min(a: real, b: real): real { if a <= b then a else b }

  function Max(a: real, b: real): real { if a >= b then a else b }

  /** Efficiency of transmission and distribution over `distanceKm`, in
      percent: a base loss of 5, plus 3 per 1000 km capped at 3, the total
      capped at 8, the efficiency floored at 92. The result is the linear
      curve from 95 at 0 km down to 92 at 1000 km and flat after that. */
  function TransmissionEfficiency(distanceKm: real): (efficiency: real)
    ensures efficiency == if distanceKm < 1000.0 then 95.0 - 3.0 * distanceKm / 1000.0 else 92.0
    ensures 92.0 <= efficiency
    ensures 0.0 <= distanceKm ==> efficiency <= 95.0
  {
    var baseLoss := 5.0;
    var distanceFactor := Min((distanceKm / 1000.0) * 3.0, 3.0);
    var totalLossPercentage := Min(baseLoss + distanceFactor, 8.0);
    Max(92.0, 100.0 - totalLossPercentage)
  }

  /** Neither the cap of the total loss at 8 nor the floor of the
      efficiency at 92 ever changes the value: the distance factor alone
      keeps the loss within 8. */
  lemma EfficiencyClampsAreInactive(distanceKm: real)
    ensures var distanceFactor := Min((distanceKm / 1000.0) * 3.0, 3.0);
      Min(5.0 + distanceFactor, 8.0) == 5.0 + distanceFactor
      && Max(92.0, 100.0 - (5.0 + distanceFactor)) == 100.0 - (5.0 + distanceFactor)
      && TransmissionEfficiency(distanceKm) == 95.0 - distanceFactor
  {
  }

  lemma EfficiencyAtZeroDistance()
    ensures TransmissionEfficiency(0.0) == 95.0
  {
  }

  /** From 1000 km on, the efficiency stays at its floor of 92. */
  lemma EfficiencySaturates(distanceKm: real)
    requires 1000.0 <= distanceKm
    ensures TransmissionEfficiency(distanceKm) == 92.0
  {
  }

  /** A longer line never delivers a larger share. */
  lemma EfficiencyIsNonIncreasing(d1: real, d2: real)
    requires d1 <= d2
    ensures TransmissionEfficiency(d1) >= TransmissionEfficiency(d2)
  {
  }

  /** Below 1000 km every extra kilometre costs exactly 0.003 points. */
  lemma EfficiencyIsStrictlyDecreasingBelowSaturation(d1: real, d2: real)
    requires d1 < d2 <= 1000.0
    ensures TransmissionEfficiency(d1) - TransmissionEfficiency(d2) == 3.0 * (d2 - d1) / 1000.0
  {
  }

  /** There is no upper clamp: a negative distance gives more than 95. */
  lemma NegativeDistanceExceedsBaseEfficiency(distanceKm: real)
    requires distanceKm < 0.0
    ensures TransmissionEfficiency(distanceKm) > 95.0
  {
  }

  // ---------------------------------------------------------------------
  // Delivered energy and its split at the hub
  // ---------------------------------------------------------------------

  /** The unrounded estimate for one site; `distanceKm` is the great-circle
      distance from the site to the hub. */
  datatype PowerEstimate = PowerEstimate(
    distanceKm: real,
    efficiency: real,
    deliveredMWh: real,
    absorbedByYangon: real,
    surplus: real)

  /** Estimate for a site at `distanceKm` from a hub whose daily demand is
      `hubDemandMWh`: the day's generation reduced by the efficiency, of
      which the hub takes what it can use and the rest is surplus. */
  function EffectivePowerAt(distanceKm: real, hubDemandMWh: real): (est: PowerEstimate)
    ensures est.distanceKm == distanceKm
    ensures est.efficiency == TransmissionEfficiency(distanceKm)
    ensures est.deliveredMWh == DailyGenerationTarget * est.efficiency / 100.0
    ensures 0.0 <= distanceKm ==> 6624.0 <= est.deliveredMWh <= 6840.0
    ensures est.absorbedByYangon <= hubDemandMWh && est.absorbedByYangon <= est.deliveredMWh
    ensures est.absorbedByYangon == hubDemandMWh || est.absorbedByYangon == est.deliveredMWh
    ensures 0.0 <= est.surplus
    ensures est.surplus > 0.0 ==> est.absorbedByYangon == hubDemandMWh
    ensures est.absorbedByYangon + est.surplus == est.deliveredMWh
  {
    var efficiency := TransmissionEfficiency(distanceKm);
    var deliveredMWh := DailyGenerationTarget * (efficiency / 100.0);
    var absorbedByYangon := Min(deliveredMWh, hubDemandMWh);
    var surplus := Max(0.0, deliveredMWh - hubDemandMWh);
    PowerEstimate(distanceKm, efficiency, deliveredMWh, absorbedByYangon, surplus)
  }

  /** The estimate against the Yangon hub. Its demand of 3200 is below the
      smallest possible delivery of 6624 (the efficiency never drops below
      92, whatever the distance), so the hub always takes its full
      demand and the surplus is everything else. */
  function CalculateEffectivePower(distanceKm: real): (est: PowerEstimate)
    ensures est.efficiency == TransmissionEfficiency(distanceKm)
    ensures est.deliveredMWh == DailyGenerationTarget * est.efficiency / 100.0
    ensures est.absorbedByYangon <= YangonHub().demandMWh
    ensures est.absorbedByYangon + est.surplus == est.deliveredMWh
    ensures est.absorbedByYangon == 3200.0 && est.surplus == est.deliveredMWh - 3200.0
    ensures 0.0 <= distanceKm ==> 3424.0 <= est.surplus <= 3640.0
  {
    EffectivePowerAt(distanceKm, YangonHub().demandMWh)
  }

  /** A site no farther than another gets at least as much energy to the
      hub. */
  lemma DeliveryIsNonIncreasingInDistance(d1: real, d2: real)
    requires d1 <= d2
    ensures CalculateEffectivePower(d1).deliveredMWh >= CalculateEffectivePower(d2).deliveredMWh
    ensures CalculateEffectivePower(d1).surplus >= CalculateEffectivePower(d2).surplus
  {
    EfficiencyIsNonIncreasing(d1, d2);
  }

  lemma EstimateAtZeroDistance()
    ensures CalculateEffectivePower(0.0) == PowerEstimate(0.0, 95.0, 6840.0, 3200.0, 3640.0)
  {
  }

  lemma EstimateAtTwoThousandKm()
    ensures CalculateEffectivePower(2000.0) == PowerEstimate(2000.0, 92.0, 6624.0, 3200.0, 3424.0)
  {
  }

  // ---------------------------------------------------------------------
  // Display rounding
  // ---------------------------------------------------------------------

  /** `Math.round` on an exact real: the nearest integer, halves upward. */
  function Round(x: real): (n: int)
    ensures n as real - 0.5 <= x < n as real + 0.5
  {
    (x + 0.5).Floor
  }

  lemma RoundIsMonotone(x: real, y: real)
    requires x <= y
    ensures Round(x) <= Round(y)
  {
  }

  /** Shifting by a whole number shifts the rounded value by the same. */
  lemma RoundShift(x: real, k: int)
    ensures Round(x + k as real) == Round(x) + k
  {
  }

  /** The estimate as it is handed to the presentation layer. */
  datatype DisplayedEstimate = DisplayedEstimate(
    distanceKm: int,
    efficiency: real,
    deliveredMWh: int,
    absorbedByYangon: int,
    surplus: int)

  /** Whole kilometres and MWh, efficiency to one decimal; every field is
      within half a unit of the value it shows. */
  function Displayed(est: PowerEstimate): (shown: DisplayedEstimate)
    ensures -0.5 < shown.distanceKm as real - est.distanceKm <= 0.5
    ensures -0.05 < shown.efficiency - est.efficiency <= 0.05
    ensures (shown.efficiency * 10.0).Floor as real == shown.efficiency * 10.0
    ensures -0.5 < shown.deliveredMWh as real - est.deliveredMWh <= 0.5
    ensures -0.5 < shown.absorbedByYangon as real - est.absorbedByYangon <= 0.5
    ensures -0.5 < shown.surplus as real - est.surplus <= 0.5
  {
    DisplayedEstimate(
      Round(est.distanceKm),
      Round(est.efficiency * 10.0) as real / 10.0,
      Round(est.deliveredMWh),
      Round(est.absorbedByYangon),
      Round(est.surplus))
  }

  /** Rounding each field on its own keeps the split exact on screen: the
      hub shows exactly 3200, shown absorbed plus shown surplus is the shown
      delivery, and the shown values stay in their ranges. */
  lemma DisplayedSplitAddsUp(distanceKm: real)
    requires 0.0 <= distanceKm
    ensures var shown := Displayed(CalculateEffectivePower(distanceKm));
      && shown.absorbedByYangon == 3200
      && shown.absorbedByYangon + shown.surplus == shown.deliveredMWh
      && 6624 <= shown.deliveredMWh <= 6840
      && 92.0 <= shown.efficiency <= 95.0
  {
    var est := CalculateEffectivePower(distanceKm);
    RoundShift(est.surplus, 3200);
    RoundIsMonotone(920.0, est.efficiency * 10.0);
    RoundIsMonotone(est.efficiency * 10.0, 950.0);
    RoundIsMonotone(6624.0, est.deliveredMWh);
    RoundIsMonotone(est.deliveredMWh, 6840.0);
  }

  // ---------------------------------------------------------------------
  // Classifiers
  // ---------------------------------------------------------------------

  /** Style class of a seismic-risk category. */
  function GetSeismicColor(seismic: Seismic): (color: string)
    ensures color in {"text-success", "text-warning", "text-energy-amber", "text-destructive"}
    ensures color != "text-muted-foreground"
  {
    match seismic
    case Low => "text-success"
    case Moderate => "text-warning"
    case ModerateHigh => "text-energy-amber"
    case High => "text-destructive"
  }

  /** No two categories share a color, so the color identifies the risk. */
  lemma SeismicColorIsInjective(s1: Seismic, s2: Seismic)
    requires s1 != s2
    ensures GetSeismicColor(s1) != GetSeismicColor(s2)
  {
  }

  datatype WaterLevel = WaterLevel(name: string, color: string)

  /** Label and style class of a water-availability score: the thresholds
      9, 7 and 5 cut the scale into four bands. */
  function GetWaterLevel(water: int): (level: WaterLevel)
    ensures level in {WaterLevel("Excellent", "text-success"), WaterLevel("Good", "text-primary"),
                      WaterLevel("Moderate", "text-warning"), WaterLevel("Limited", "text-destructive")}
    ensures level.name == "Excellent" <==> 9 <= water
    ensures level.name == "Good" <==> 7 <= water < 9
    ensures level.name == "Moderate" <==> 5 <= water < 7
    ensures level.name == "Limited" <==> water < 5
  {
    if water >= 9 then WaterLevel("Excellent", "text-success")
    else if water >= 7 then WaterLevel("Good", "text-primary")
    else if water >= 5 then WaterLevel("Moderate", "text-warning")
    else WaterLevel("Limited", "text-destructive")
  }

  /** Position of a level on the ladder, 3 for the best band. */
  function WaterRank(level: WaterLevel): nat {
    if level.name == "Excellent" then 3
    else if level.name == "Good" then 2
    else if level.name == "Moderate" then 1
    else 0
  }

  /** More water never gives a worse band. */
  lemma WaterLevelIsMonotone(w1: int, w2: int)
    requires w1 <= w2
    ensures WaterRank(GetWaterLevel(w1)) <= WaterRank(GetWaterLevel(w2))
  {
  }

  /** The preferred site is the only one flagged so, and it sits in the
      best water band with the lowest seismic risk. */
  lemma PreferredSiteIsDawei()
    ensures forall i :: 0 <= i < |CandidateSites| ==>
      (CandidateSites[i].isPreferred <==> CandidateSites[i].id == "dawei")
    ensures GetWaterLevel(CandidateSites[0].water).name == "Excellent"
    ensures GetSeismicColor(CandidateSites[0].seismic) == "text-success"
  {
  }
}
