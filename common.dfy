// Shared vocabulary of the rule layer: optional values, resource maps,
// zones, regions, factions and the visual events appended to the log.

module GameTypes {

  datatype Option<T> = None | Some(value: T)

  datatype Result<T, E> = Ok(value: T) | Err(error: E)

  /** Resource amounts keyed by resource name ("clay", "rubies", ...). */
  type Resources = map<string, real>

  /** The `(r[k] || 0)` reading of a resource: a missing key counts as 0. */
  function Amount(r: Resources, k: string): real
  {
    if k in r then r[k] else 0.0
  }

  /** Adds `delta` to resource `k`, a missing key starting from 0. */
  function Credit(r: Resources, k: string, delta: real): (r': Resources)
    ensures Amount(r', k) == Amount(r, k) + delta
    ensures forall j :: j != k ==> Amount(r', j) == Amount(r, j)
    ensures r'.Keys == r.Keys + {k}
  {
    r[k := Amount(r, k) + delta]
  }

  function Min(a: real, b: real): real { if a <= b then a else b }
  function Max(a: real, b: real): real { if a >= b then a else b }

  /** `Math.floor` as a real. */
  function Floor(x: real): real { x.Floor as real }

  /** `Math.round`: halves round up. */
  function Round(x: real): int { (x + 0.5).Floor }

  /** `Math.ceil`. */
  function Ceil(x: real): int { -((-x).Floor) }

  /** Zone colour of a region or licence: green < yellow < red. */
  datatype ZoneColor = Green | Yellow | Red

  /** Position of a zone in the green < yellow < red ladder. */
  function ZoneRank(z: ZoneColor): nat
  {
    match z
    case Green => 0
    case Yellow => 1
    case Red => 2
  }

  /** The five regions of the world map. */
  datatype RegionId = RustValley | CrystalWastes | IronGates | MagmaCore | VoidChasm

  /** The string value each region id has at run time. */
  function RegionKey(r: RegionId): string
  {
    match r
    case RustValley => "rust_valley"
    case CrystalWastes => "crystal_wastes"
    case IronGates => "iron_gates"
    case MagmaCore => "magma_core"
    case VoidChasm => "void_chasm"
  }

  /** Reads a region id back from its string; unknown strings have none. */
  function ParseRegion(s: string): (r: Option<RegionId>)
    ensures r.Some? ==> RegionKey(r.value) == s
  {
    if s == "rust_valley" then Some(RustValley)
    else if s == "crystal_wastes" then Some(CrystalWastes)
    else if s == "iron_gates" then Some(IronGates)
    else if s == "magma_core" then Some(MagmaCore)
    else if s == "void_chasm" then Some(VoidChasm)
    else None
  }

  lemma ParseRegionKey(r: RegionId)
    ensures ParseRegion(RegionKey(r)) == Some(r)
  {
  }

  /** The three factions; reputation maps are keyed by their string names. */
  datatype FactionId = Corporate | Science | Rebels

  function FactionKey(f: FactionId): string
  {
    match f
    case Corporate => "CORPORATE"
    case Science => "SCIENCE"
    case Rebels => "REBELS"
  }

  /**
   * An entry of the action log queue. Display texts are reduced to short
   * tags; `LogAmount` carries the number a message shows.
   */
  datatype VisualEvent =
    | Log(tag: string)
    | LogAmount(tag: string, amount: real)
    | Sound(sfx: string)
    | DamageText(amount: real)

  /** An inventory item (artifact instance). */
  datatype InventoryItem = InventoryItem(
    instanceId: string,
    definitionId: string,
    acquiredAt: int,
    isIdentified: bool,
    isEquipped: bool)

  type Inventory = map<string, InventoryItem>

  /** Puts a freshly found, unidentified artifact into the inventory. */
  function AddArtifact(inv: Inventory, instanceId: string, definitionId: string, now: int): (inv': Inventory)
    ensures instanceId in inv' && inv'[instanceId] == InventoryItem(instanceId, definitionId, now, false, false)
    ensures forall k :: k in inv && k != instanceId ==> k in inv' && inv'[k] == inv[k]
    ensures inv'.Keys == inv.Keys + {instanceId}
  {
    inv[instanceId := InventoryItem(instanceId, definitionId, now, false, false)]
  }

  datatype BaseType = Outpost | Camp | Station

  datatype BaseStatus = Building | Active

  /** The workshop tier range of a base, `[min, max]`. */
  datatype TierRange = TierRange(lo: int, hi: int)

  /**
   * A player base in one region. `facilities` is optional in the record:
   * `None` stands for a base written without the field, whose value is then
   * undefined.
   */
  datatype PlayerBase = PlayerBase(
    id: string,
    regionId: RegionId,
    baseType: BaseType,
    status: BaseStatus,
    storageCapacity: real,
    storedResources: Resources,
    hasWorkshop: bool,
    workshopTierRange: TierRange,
    hasFuelFacilities: bool,
    hasMarket: bool,
    hasFortification: bool,
    hasGuards: bool,
    constructionStartTime: int,
    constructionCompletionTime: int,
    lastVisitedAt: int,
    upgradeLevel: nat,
    facilities: Option<seq<string>>)

  /** The test `bases.find` applies: the base's region, and its status when only active bases count. */
  predicate BaseMatches(b: PlayerBase, region: RegionId, activeOnly: bool)
  {
    b.regionId == region && (!activeOnly || b.status == Active)
  }

  /** `bases.find(...)`: the first matching base, if any. */
  function FindBase(bases: seq<PlayerBase>, region: RegionId, activeOnly: bool): (r: Option<PlayerBase>)
    ensures r.None? <==> forall i :: 0 <= i < |bases| ==> !BaseMatches(bases[i], region, activeOnly)
    ensures r.Some? ==> BaseMatches(r.value, region, activeOnly) && r.value in bases
    ensures r.Some? ==> (exists i :: 0 <= i < |bases| && bases[i] == r.value &&
                                    (forall j :: 0 <= j < i ==> !BaseMatches(bases[j], region, activeOnly)))
  {
    if |bases| == 0 then None
    else if BaseMatches(bases[0], region, activeOnly) then Some(bases[0])
    else
      var r := FindBase(bases[1..], region, activeOnly);
      if r.Some? then
        ghost var i :| 0 <= i < |bases[1..]| && bases[1..][i] == r.value &&
                       (forall j :: 0 <= j < i ==> !BaseMatches(bases[1..][j], region, activeOnly));
        assert bases[i + 1] == r.value;
        r
      else r
  }

  /** The decimal digits of a natural number, as a template string shows it. */
  function NatToString(n: nat): (s: string)
    ensures |s| > 0 && forall i :: 0 <= i < |s| ==> '0' <= s[i] <= '9'
    decreases n
  {
    var digit := ['0', '1', '2', '3', '4', '5', '6', '7', '8', '9'][n % 10];
    if n < 10 then [digit] else NatToString(n / 10) + [digit]
  }

  /** The index of the first `(resource, amount)` entry the stock does not cover (`|entries|` if none). */
  function FirstUncovered(entries: seq<(string, real)>, stock: Resources): (i: nat)
    ensures i <= |entries|
    ensures forall j :: 0 <= j < i ==> Amount(stock, entries[j].0) >= entries[j].1
    ensures i < |entries| ==> Amount(stock, entries[i].0) < entries[i].1
  {
    if |entries| == 0 then 0
    else if Amount(stock, entries[0].0) < entries[0].1 then 0
    else 1 + FirstUncovered(entries[1..], stock)
  }

  /** An index with every earlier entry covered and itself short (or past the end) is `FirstUncovered`. */
  lemma FirstUncoveredAt(entries: seq<(string, real)>, stock: Resources, i: nat)
    requires i <= |entries|
    requires forall j :: 0 <= j < i ==> Amount(stock, entries[j].0) >= entries[j].1
    requires i < |entries| ==> Amount(stock, entries[i].0) < entries[i].1
    ensures FirstUncovered(entries, stock) == i
  {
  }

  /** The sum of the amounts listed for resource `k`. */
  function Total(materials: seq<(string, real)>, k: string): real
    decreases |materials|
  {
    if |materials| == 0 then 0.0
    else
      var last := materials[|materials| - 1];
      Total(materials[..|materials| - 1], k) + (if last.0 == k then last.1 else 0.0)
  }

  /** The resources after each listed amount is taken off its resource, in order. */
  function Debit(r: Resources, materials: seq<(string, real)>): (r': Resources)
    ensures forall k :: Amount(r', k) == Amount(r, k) - Total(materials, k)
    decreases |materials|
  {
    if |materials| == 0 then r
    else
      var last := materials[|materials| - 1];
      Credit(Debit(r, materials[..|materials| - 1]), last.0, -last.1)
  }

  /** The payment loop: takes each listed amount off its resource, in order. */
  method PayEntries(r: Resources, materials: seq<(string, real)>) returns (r': Resources)
    ensures r' == Debit(r, materials)
  {
    r' := r;
    var i := 0;
    while i < |materials|
      invariant 0 <= i <= |materials|
      invariant r' == Debit(r, materials[..i])
    {
      var (resource, amount) := materials[i];
      assert materials[..i + 1][..i] == materials[..i];
      r' := Credit(r', resource, -amount);
      i := i + 1;
    }
    assert materials[..i] == materials;
  }

  /** The check loop: every listed amount is held (a missing resource counts as 0). */
  method EntriesCovered(entries: seq<(string, real)>, stock: Resources) returns (ok: bool)
    ensures ok <==> FirstUncovered(entries, stock) == |entries|
    ensures ok <==> forall j :: 0 <= j < |entries| ==> Amount(stock, entries[j].0) >= entries[j].1
  {
    var i := 0;
    while i < |entries|
      invariant 0 <= i <= |entries|
      invariant forall j :: 0 <= j < i ==> Amount(stock, entries[j].0) >= entries[j].1
    {
      var (resource, amount) := entries[i];
      if Amount(stock, resource) < amount {
        FirstUncoveredAt(entries, stock, i);
        return false;
      }
      i := i + 1;
    }
    FirstUncoveredAt(entries, stock, i);
    return true;
  }
}
