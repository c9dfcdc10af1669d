// The world map: region table, distances between regions, the zone colour a
// region shows for a player level (services/regionMath.ts, with the region
// table of constants/regions.ts).

module RegionMath {
  import opened GameTypes

  /** A region of the map (names, bonuses and lore are not modelled). */
  datatype Region = Region(id: RegionId, x: int, y: int, recommendedLevel: int, baseZoneColor: ZoneColor)

  /** `REGIONS`. */
  function Regions(id: RegionId): (r: Region)
    ensures r.id == id
  {
    match id
    case RustValley => Region(RustValley, 0, 0, 10, Green)
    case CrystalWastes => Region(CrystalWastes, 0, 1000, 25, Green)
    case IronGates => Region(IronGates, 1000, 0, 35, Yellow)
    case MagmaCore => Region(MagmaCore, -700, -700, 50, Red)
    case VoidChasm => Region(VoidChasm, 700, 700, 60, Red)
  }

  /**
   * `Math.round(Math.sqrt(n))` for a whole `n`: `k` with
   * `(k - 1/2)^2 <= n < (k + 1/2)^2`, which over whole numbers reads
   * `k*k - k < n <= k*k + k` (and `k = 0` for `n = 0`).
   */
  predicate IsRoundSqrt(n: nat, k: nat)
  {
    (k == 0 && n == 0) || (k >= 1 && k * k - k < n <= k * k + k)
  }

  function RoundSqrt(n: nat): (k: nat)
    ensures IsRoundSqrt(n, k)
  {
    if n == 0 then 0 else SearchRoundSqrt(n, 1)
  }

  /** Tries `k`, `k + 1`, ... until `n <= k*k + k`. */
  function SearchRoundSqrt(n: nat, k: nat): (r: nat)
    requires n > 0 && k >= 1 && k * k - k < n
    ensures IsRoundSqrt(n, r)
    decreases n - k
  {
    if n <= k * k + k then k
    else
      assert (k + 1) * (k + 1) - (k + 1) == k * k + k;
      SearchRoundSqrt(n, k + 1)
  }

  /** There is only one rounded square root. */
  lemma RoundSqrtUnique(n: nat, k1: nat, k2: nat)
    requires IsRoundSqrt(n, k1) && IsRoundSqrt(n, k2)
    ensures k1 == k2
  {
    if k1 < k2 {
      StepGrows(k1 + 1, k2);
    } else if k2 < k1 {
      StepGrows(k2 + 1, k1);
    }
  }

  /** `k*k - k` does not decrease. */
  lemma StepGrows(a: nat, b: nat)
    requires 1 <= a <= b
    ensures a * a - a <= b * b - b
  {
    assert b * b - b - (a * a - a) == (b - a) * (b + a - 1);
    assert (b - a) * (b + a - 1) >= 0;
  }

  /** `getRegionById`: the table entry, or nothing for a string that names no region. */
  function GetRegionById(id: string): (r: Option<Region>)
    ensures r.Some? <==> ParseRegion(id).Some?
    ensures r.Some? ==> RegionKey(r.value.id) == id && r.value == Regions(r.value.id)
  {
    match ParseRegion(id)
    case None => None
    case Some(rid) => Some(Regions(rid))
  }

  /** `calculateDistance`: the rounded straight-line distance, 0 when either id is unknown. */
  function CalculateDistance(from: string, to: string): (d: nat)
    ensures ParseRegion(from).None? || ParseRegion(to).None? ==> d == 0
    ensures ParseRegion(from).Some? && ParseRegion(to).Some? ==>
      (var a := Regions(ParseRegion(from).value);
       var b := Regions(ParseRegion(to).value);
       IsRoundSqrt((b.x - a.x) * (b.x - a.x) + (b.y - a.y) * (b.y - a.y), d))
  {
    var regionFrom := GetRegionById(from);
    var regionTo := GetRegionById(to);
    if regionFrom.None? || regionTo.None? then 0
    else
      var dx := regionTo.value.x - regionFrom.value.x;
      var dy := regionTo.value.y - regionFrom.value.y;
      RoundSqrt(Square(dx) + Square(dy))
  }

  /** `x * x`, which is never negative. */
  function Square(x: int): nat
  {
    x * x
  }

  /** The distance does not depend on the direction. */
  lemma DistanceSymmetric(from: string, to: string)
    ensures CalculateDistance(from, to) == CalculateDistance(to, from)
  {
    if ParseRegion(from).Some? && ParseRegion(to).Some? {
      var a := Regions(ParseRegion(from).value);
      var b := Regions(ParseRegion(to).value);
      assert (b.x - a.x) * (b.x - a.x) == (a.x - b.x) * (a.x - b.x);
      assert (b.y - a.y) * (b.y - a.y) == (a.y - b.y) * (a.y - b.y);
      RoundSqrtUnique((b.x - a.x) * (b.x - a.x) + (b.y - a.y) * (b.y - a.y),
                      CalculateDistance(from, to), CalculateDistance(to, from));
    }
  }

  /** A region is at distance 0 from itself. */
  lemma DistanceToSelf(id: string)
    ensures CalculateDistance(id, id) == 0
  {
    if ParseRegion(id).Some? {
      RoundSqrtUnique(0, CalculateDistance(id, id), 0);
    }
  }

  /** Rust Valley to Crystal Wastes is 1000 straight north; Rust Valley to Magma Core rounds to 990. */
  lemma {:induction false} KnownDistances()
    ensures CalculateDistance("rust_valley", "crystal_wastes") == 1000
    ensures CalculateDistance("rust_valley", "magma_core") == 990
  {
    RoundSqrtUnique(1000000, CalculateDistance("rust_valley", "crystal_wastes"), 1000);
    RoundSqrtUnique(980000, CalculateDistance("rust_valley", "magma_core"), 990);
  }

  /** `getRegionColor`: green 20 levels above the recommendation, yellow from it, red below. */
  function GetRegionColor(region: Region, playerLevel: real): (z: ZoneColor)
    ensures z == Green <==> playerLevel >= region.recommendedLevel as real + 20.0
    ensures z == Yellow <==> region.recommendedLevel as real <= playerLevel < region.recommendedLevel as real + 20.0
    ensures z == Red <==> playerLevel < region.recommendedLevel as real
  {
    if playerLevel >= region.recommendedLevel as real + 20.0 then Green
    else if playerLevel >= region.recommendedLevel as real then Yellow
    else Red
  }

  /** Gaining levels never makes a region look more dangerous. */
  lemma ColorNeverWorsens(region: Region, level1: real, level2: real)
    requires level1 <= level2
    ensures ZoneRank(GetRegionColor(region, level2)) <= ZoneRank(GetRegionColor(region, level1))
  {
  }

  /** `getZoneColorEmoji`. */
  function ZoneColorEmoji(color: ZoneColor): (e: string)
    ensures |e| == 1
  {
    match color
    case Green => "\U{1F7E2}"
    case Yellow => "\U{1F7E1}"
    case Red => "\U{1F534}"
  }

  /** `getZoneColorLabel`. */
  function ZoneColorLabel(color: ZoneColor): (l: string)
    ensures |l| > 0
  {
    match color
    case Green => "ЛЕГКО"
    case Yellow => "УМЕРЕННО"
    case Red => "ОПАСНО"
  }

  /** Different colours get different icons and labels. */
  lemma ZoneLabelsDistinct(a: ZoneColor, b: ZoneColor)
    requires a != b
    ensures ZoneColorEmoji(a) != ZoneColorEmoji(b) && ZoneColorLabel(a) != ZoneColorLabel(b)
  {
    assert ZoneColorEmoji(a)[0] != ZoneColorEmoji(b)[0];
    assert ZoneColorLabel(a)[0] != ZoneColorLabel(b)[0] || |ZoneColorLabel(a)| != |ZoneColorLabel(b)|;
  }
}
