// The monster codex and the lookups that log boss victories under a codex
// entry (constants/monsters.ts, with the BossType enum of types.ts).

module Monsters {
  import opened GameTypes

  /**
   * Boss kinds. The enum in types.ts declares only the first four;
   * `VoidSentinel` is the member the codex refers to.
   */
  datatype BossType = Worm | Core | Construct | Swarm | VoidSentinel

  /** The members the enum actually declares. */
  predicate Declared(t: BossType)
  {
    !t.VoidSentinel?
  }

  /** The enum member's string value. */
  function BossTypeKey(t: BossType): (k: string)
    ensures |k| > 0
    ensures forall c :: c in k ==> 'A' <= c <= 'Z' || c == '_'
  {
    match t
    case Worm => "WORM"
    case Core => "CORE"
    case Construct => "CONSTRUCT"
    case Swarm => "SWARM"
    case VoidSentinel => "VOID_SENTINEL"
  }

  function LowerChar(c: char): (l: char)
    ensures 'A' <= c <= 'Z' ==> 'a' <= l <= 'z' && l as int == c as int + 32
    ensures !('A' <= c <= 'Z') ==> l == c
  {
    if 'A' <= c <= 'Z' then (c as int + 32) as char else c
  }

  /** `toLowerCase` on ASCII text: letters lowered one by one, everything else kept. */
  function Lower(s: string): (l: string)
    ensures |l| == |s| && forall i :: 0 <= i < |s| ==> l[i] == LowerChar(s[i])
  {
    seq(|s|, i requires 0 <= i < |s| => LowerChar(s[i]))
  }

  /** A codex entry; `kind` None is the `undefined` a missing enum member evaluates to. */
  datatype MonsterEntry = MonsterEntry(id: string, nameRu: string, nameEn: string, kind: Option<BossType>, tier: nat, weakness: string)

  /** `MONSTER_CODEX`, with `voidKind` as the type of the two void entries. */
  function CodexWith(voidKind: Option<BossType>): (c: seq<MonsterEntry>)
    ensures |c| == 10
  {
    [
      MonsterEntry("worm_basic", "Глубинный Пожиратель", "Deep Devourer", Some(Worm), 1, "MASH"),
      MonsterEntry("worm_advanced", "Титановый Червь", "Titanium Worm", Some(Worm), 2, "MASH"),
      MonsterEntry("swarm_basic", "Королева Улья", "Hive Queen", Some(Swarm), 1, "ALIGN"),
      MonsterEntry("swarm_advanced", "Коллективный Разум", "Collective Mind", Some(Swarm), 2, "ALIGN"),
      MonsterEntry("core_basic", "Страж Ядра", "Core Guardian", Some(Core), 1, "TIMING"),
      MonsterEntry("core_advanced", "Сингулярность-1", "Singularity-1", Some(Core), 2, "TIMING"),
      MonsterEntry("construct_basic", "Геометрический Ужас", "Geometric Horror", Some(Construct), 1, "MEMORY"),
      MonsterEntry("construct_advanced", "Монолит", "Monolith", Some(Construct), 2, "MEMORY"),
      MonsterEntry("void_basic", "Страж Пустоты", "Void Sentinel", voidKind, 1, "MEMORY"),
      MonsterEntry("void_advanced", "Центурион AEGIS-7", "Centurion AEGIS-7", voidKind, 2, "MEMORY")
    ]
  }

  /** The codex as the module evaluates it: `BossType.VOID_SENTINEL` is undefined. */
  const CodexAsWritten: seq<MonsterEntry> := CodexWith(None)

  /** The codex as intended: the void entries are of type VOID_SENTINEL. */
  const Codex: seq<MonsterEntry> := CodexWith(Some(VoidSentinel))

  /** The codex has a basic and an advanced entry for each of the five kinds, under distinct ids and names. */
  lemma CodexWellFormed()
    ensures forall i, j :: 0 <= i < j < |Codex| ==> Codex[i].id != Codex[j].id
    ensures forall i, j :: 0 <= i < j < |Codex| ==> Codex[i].nameEn != Codex[j].nameEn
    ensures forall i :: 0 <= i < |Codex| ==> Codex[i].kind.Some? && Codex[i].tier == i % 2 + 1
  {
  }

  /** `getMonstersByType` over a codex: the entries of kind `t`, in codex order. */
  function ByType(codex: seq<MonsterEntry>, t: Option<BossType>): (r: seq<MonsterEntry>)
    ensures forall m :: m in r <==> m in codex && m.kind == t
    ensures |r| <= |codex|
    ensures |r| == |codex| ==> r == codex
  {
    if codex == [] then []
    else if codex[0].kind == t then [codex[0]] + ByType(codex[1..], t)
    else
      var rest := ByType(codex[1..], t);
      assert |rest| < |codex|;
      rest
  }

  /** `getMonstersByType` on the intended codex. */
  function GetMonstersByType(t: BossType): (r: seq<MonsterEntry>)
    ensures forall m :: m in r <==> m in Codex && m.kind == Some(t)
  {
    ByType(Codex, Some(t))
  }

  /** The position of each kind's pair of entries in the codex. */
  function Slot(t: BossType): (k: nat)
    ensures k < 5
  {
    match t
    case Worm => 0
    case Swarm => 1
    case Core => 2
    case Construct => 3
    case VoidSentinel => 4
  }

  /** Each kind lists exactly its basic and its advanced entry, in that order. */
  lemma {:induction false} MonstersByTypeListed(t: BossType)
    ensures GetMonstersByType(t) == [Codex[2 * Slot(t)], Codex[2 * Slot(t) + 1]]
    ensures GetMonstersByType(t)[0].tier == 1 && GetMonstersByType(t)[1].tier == 2
  {
    SlotLayout(t);
    match t
    case Worm => PairSelected(Codex, 0, Some(Worm));
    case Swarm => PairSelected(Codex, 2, Some(Swarm));
    case Core => PairSelected(Codex, 4, Some(Core));
    case Construct => PairSelected(Codex, 6, Some(Construct));
    case VoidSentinel => PairSelected(Codex, 8, Some(VoidSentinel));
  }

  /** A codex whose only entries of kind `t` are the two at `k` lists exactly those two. */
  lemma {:induction false} PairSelected(c: seq<MonsterEntry>, k: nat, t: Option<BossType>)
    requires k + 2 <= |c| && c[k].kind == t && c[k + 1].kind == t
    requires forall i :: 0 <= i < k ==> c[i].kind != t
    requires forall i :: k + 2 <= i < |c| ==> c[i].kind != t
    ensures ByType(c, t) == [c[k], c[k + 1]]
  {
    var a, p, b := c[..k], c[k..k + 2], c[k + 2..];
    assert c == a + p + b;
    assert ByType(a, t) == [] by {
      ByTypeNone(a, t);
    }
    assert ByType(b, t) == [] by {
      assert forall i :: 0 <= i < |b| ==> b[i] == c[k + 2 + i];
      ByTypeNone(b, t);
    }
    assert ByType(p, t) == p by {
      assert p[1..] == [p[1]];
    }
    ByTypeAppend(a + p, b, t);
    ByTypeAppend(a, p, t);
  }

  /** The entries of kind `t` are exactly the pair at its slot. */
  lemma SlotLayout(t: BossType)
    ensures Codex[2 * Slot(t)].kind == Some(t) && Codex[2 * Slot(t) + 1].kind == Some(t)
    ensures Codex[2 * Slot(t)].tier == 1 && Codex[2 * Slot(t) + 1].tier == 2
    ensures forall i :: 0 <= i < 2 * Slot(t) ==> Codex[i].kind != Some(t)
    ensures forall i :: 2 * Slot(t) + 2 <= i < |Codex| ==> Codex[i].kind != Some(t)
  {
  }

  /** Filtering distributes over concatenation. */
  lemma {:induction false} ByTypeAppend(a: seq<MonsterEntry>, b: seq<MonsterEntry>, t: Option<BossType>)
    ensures ByType(a + b, t) == ByType(a, t) + ByType(b, t)
  {
    if a == [] {
      assert a + b == b;
    } else {
      assert (a + b)[1..] == a[1..] + b;
      ByTypeAppend(a[1..], b, t);
    }
  }

  /** A codex without entries of kind `t` lists nothing for it. */
  lemma ByTypeNone(c: seq<MonsterEntry>, t: Option<BossType>)
    requires forall i :: 0 <= i < |c| ==> c[i].kind != t
    ensures ByType(c, t) == []
  {
  }

  /** The predicate of the `find` in `getBossCodexId`. */
  predicate Matches(m: MonsterEntry, name: string, t: Option<BossType>)
  {
    m.kind == t && (m.nameRu == name || m.nameEn == name)
  }

  /** Index of the first matching entry, or `|codex|` when none matches. */
  function FindIndex(codex: seq<MonsterEntry>, name: string, t: Option<BossType>): (i: nat)
    ensures i <= |codex|
    ensures i < |codex| ==> Matches(codex[i], name, t)
    ensures forall j :: 0 <= j < i ==> !Matches(codex[j], name, t)
  {
    if codex == [] then 0
    else if Matches(codex[0], name, t) then 0
    else 1 + FindIndex(codex[1..], name, t)
  }

  /** The fallback id as written: the lower-cased enum value followed by `_basic`. */
  function FallbackAsWritten(t: BossType): (id: string)
    ensures |id| == |BossTypeKey(t)| + 6
    ensures id[..|BossTypeKey(t)|] == Lower(BossTypeKey(t)) && id[|BossTypeKey(t)|..] == "_basic"
  {
    Lower(BossTypeKey(t)) + "_basic"
  }

  /**
   * `getBossCodexId` as the module evaluates it: `t` None is the undefined
   * `BossType.VOID_SENTINEL`, for which the fallback's `toLowerCase` throws
   * (the result is then None).
   */
  function GetBossCodexIdAsWritten(name: string, t: Option<BossType>): (r: Option<string>)
    requires t.Some? ==> Declared(t.value)
    ensures FindIndex(CodexAsWritten, name, t) < |CodexAsWritten| ==> r == Some(CodexAsWritten[FindIndex(CodexAsWritten, name, t)].id)
    ensures r.None? <==> t.None? && FindIndex(CodexAsWritten, name, t) == |CodexAsWritten|
  {
    var i := FindIndex(CodexAsWritten, name, t);
    if i < |CodexAsWritten| then Some(CodexAsWritten[i].id)
    else if t.None? then None
    else Some(FallbackAsWritten(t.value))
  }

  /** The written fallback of each kind, spelled out. */
  function SpelledFallback(t: BossType): string
  {
    match t
    case Worm => "worm_basic"
    case Core => "core_basic"
    case Construct => "construct_basic"
    case Swarm => "swarm_basic"
    case VoidSentinel => "void_sentinel_basic"
  }

  /** Lower-casing the kind's key and appending `_basic` spells the fallback out. */
  lemma FallbackOf(t: BossType)
    ensures FallbackAsWritten(t) == SpelledFallback(t)
  {
    match t
    case Worm => assert Lower("WORM") == "worm"; assert "worm" + "_basic" == "worm_basic";
    case Core => assert Lower("CORE") == "core"; assert "core" + "_basic" == "core_basic";
    case Construct => assert Lower("CONSTRUCT") == "construct"; assert "construct" + "_basic" == "construct_basic";
    case Swarm => assert Lower("SWARM") == "swarm"; assert "swarm" + "_basic" == "swarm_basic";
    case VoidSentinel => assert Lower("VOID_SENTINEL") == "void_sentinel"; assert "void_sentinel" + "_basic" == "void_sentinel_basic";
  }

  /** The lower-cased keys of the four declared kinds. */
  lemma {:induction false} DeclaredFallbacks()
    ensures FallbackAsWritten(Worm) == "worm_basic"
    ensures FallbackAsWritten(Core) == "core_basic"
    ensures FallbackAsWritten(Construct) == "construct_basic"
    ensures FallbackAsWritten(Swarm) == "swarm_basic"
    ensures FallbackAsWritten(VoidSentinel) == "void_sentinel_basic"
  {
    FallbackOf(Worm);
    FallbackOf(Core);
    FallbackOf(Construct);
    FallbackOf(Swarm);
    FallbackOf(VoidSentinel);
  }

  /** As written, only entries without a kind carry the void ids. */
  lemma VoidIdsHaveNoKind(k: nat)
    requires k < |CodexAsWritten|
    ensures CodexAsWritten[k].id == "void_basic" || CodexAsWritten[k].id == "void_advanced" ==> CodexAsWritten[k].kind.None?
  {
  }

  /**
   * As written, no boss of a declared kind is ever logged under a void entry,
   * and no declared kind lists them.
   */
  lemma {:induction false} VoidEntriesUnreachableAsWritten(name: string, t: BossType)
    requires Declared(t)
    ensures GetBossCodexIdAsWritten(name, Some(t)) != Some("void_basic")
    ensures GetBossCodexIdAsWritten(name, Some(t)) != Some("void_advanced")
    ensures forall m :: m in ByType(CodexAsWritten, Some(t)) ==> m.id != "void_basic" && m.id != "void_advanced"
  {
    VoidLookupUnreachable(name, t);
    VoidNotListed(t);
  }

  /** As written, a declared kind's lookup never yields a void id. */
  lemma VoidLookupUnreachable(name: string, t: BossType)
    requires Declared(t)
    ensures GetBossCodexIdAsWritten(name, Some(t)) != Some("void_basic")
    ensures GetBossCodexIdAsWritten(name, Some(t)) != Some("void_advanced")
  {
    FallbackOf(t);
    var i := FindIndex(CodexAsWritten, name, Some(t));
    if i < |CodexAsWritten| {
      VoidIdsHaveNoKind(i);
    }
  }

  /** As written, a kind's list never holds a void entry. */
  lemma VoidNotListed(t: BossType)
    ensures forall m :: m in ByType(CodexAsWritten, Some(t)) ==> m.id != "void_basic" && m.id != "void_advanced"
  {
    forall k | 0 <= k < |CodexAsWritten|
      ensures CodexAsWritten[k].id == "void_basic" || CodexAsWritten[k].id == "void_advanced" ==> CodexAsWritten[k].kind.None?
    {
      VoidIdsHaveNoKind(k);
    }
    KindlessNotListed(CodexAsWritten, Some(t));
  }

  /** Entries without a kind are never listed for a kind. */
  lemma KindlessNotListed(c: seq<MonsterEntry>, t: Option<BossType>)
    requires t.Some?
    requires forall k :: 0 <= k < |c| ==> c[k].id == "void_basic" || c[k].id == "void_advanced" ==> c[k].kind.None?
    ensures forall m :: m in ByType(c, t) ==> m.id != "void_basic" && m.id != "void_advanced"
  {
  }

  /** As written, the Void Sentinel reported as a WORM is logged as "worm_basic". */
  lemma {:induction false} VoidSentinelAsWormAsWritten()
    ensures GetBossCodexIdAsWritten("Void Sentinel", Some(Worm)) == Some("worm_basic")
  {
    FallbackOf(Worm);
    var c := CodexAsWritten;
    assert !Matches(c[0], "Void Sentinel", Some(Worm)) && !Matches(c[1], "Void Sentinel", Some(Worm)) by {
      assert c[0].nameEn == "Deep Devourer" && c[1].nameEn == "Titanium Worm";
      assert |c[0].nameRu| != |"Void Sentinel"| && |c[1].nameRu| != |"Void Sentinel"|;
    }
    assert forall k :: 2 <= k < |c| ==> c[k].kind != Some(Worm);
  }

  /** As written, the fallback for VOID_SENTINEL would name no codex entry. */
  lemma VoidFallbackMissing()
    ensures forall m :: m in Codex ==> m.id != FallbackAsWritten(VoidSentinel)
  {
    FallbackOf(VoidSentinel);
  }

  /** The basic codex id of each kind: the id of the tier-1 entry at its slot. */
  function BasicId(t: BossType): (id: string)
    ensures Declared(t) ==> id == FallbackAsWritten(t)
    ensures exists i :: 0 <= i < |Codex| && Codex[i].id == id && Codex[i].kind == Some(t) && Codex[i].tier == 1
  {
    SlotLayout(t);
    FallbackOf(t);
    BasicIdSpelled(t);
    Codex[2 * Slot(t)].id
  }

  /** The tier-1 id at each declared kind's slot is the kind's spelled-out fallback. */
  lemma BasicIdSpelled(t: BossType)
    ensures Declared(t) ==> Codex[2 * Slot(t)].id == SpelledFallback(t)
  {
  }

  /**
   * `getBossCodexId` as intended: the entry of that kind carrying the name,
   * else the basic entry of the kind. Every victory is logged under an
   * existing entry of the boss's own kind.
   */
  function GetBossCodexId(name: string, t: BossType): (id: string)
    ensures exists i :: 0 <= i < |Codex| && Codex[i].id == id && Codex[i].kind == Some(t)
    ensures FindIndex(Codex, name, Some(t)) < |Codex| ==> id == Codex[FindIndex(Codex, name, Some(t))].id
    ensures FindIndex(Codex, name, Some(t)) == |Codex| ==> id == BasicId(t)
  {
    var i := FindIndex(Codex, name, Some(t));
    if i < |Codex| then Codex[i].id else BasicId(t)
  }

  /** Within one kind, a name picks out a single entry. */
  lemma NamesIdentify(i: nat, j: nat, name: string)
    requires i < |Codex| && j < |Codex|
    requires name == Codex[i].nameEn || name == Codex[i].nameRu
    requires Matches(Codex[j], name, Codex[i].kind)
    ensures i == j
  {
    assert i / 2 == j / 2;
  }

  /** Every codex entry is reached by its own English or Russian name and kind. */
  lemma {:induction false} EveryEntryReachable(i: nat)
    requires i < |Codex|
    ensures GetBossCodexId(Codex[i].nameEn, Codex[i].kind.value) == Codex[i].id
    ensures GetBossCodexId(Codex[i].nameRu, Codex[i].kind.value) == Codex[i].id
  {
    CodexWellFormed();
    var en := FindIndex(Codex, Codex[i].nameEn, Codex[i].kind);
    var ru := FindIndex(Codex, Codex[i].nameRu, Codex[i].kind);
    assert Matches(Codex[i], Codex[i].nameEn, Codex[i].kind);
    assert Matches(Codex[i], Codex[i].nameRu, Codex[i].kind);
    NamesIdentify(i, en, Codex[i].nameEn);
    NamesIdentify(i, ru, Codex[i].nameRu);
  }

  /** The corrected lookup agrees with the written one wherever the written one is defined and finds a declared kind. */
  lemma {:induction false} CorrectionAgreesOnDeclaredKinds(name: string, t: BossType)
    requires Declared(t)
    ensures GetBossCodexIdAsWritten(name, Some(t)) == Some(GetBossCodexId(name, t))
  {
    FindIndexIgnoresVoidKind(CodexAsWritten, Codex, name, t);
  }

  /** With a declared kind, the two codices answer every `find` alike. */
  lemma {:induction false} FindIndexIgnoresVoidKind(a: seq<MonsterEntry>, b: seq<MonsterEntry>, name: string, t: BossType)
    requires a == CodexAsWritten && b == Codex && Declared(t)
    ensures FindIndex(a, name, Some(t)) == FindIndex(b, name, Some(t))
    ensures FindIndex(a, name, Some(t)) < |a| ==> a[FindIndex(a, name, Some(t))].id == b[FindIndex(b, name, Some(t))].id
  {
    forall k | 0 <= k < |a|
      ensures (Matches(a[k], name, Some(t)) <==> Matches(b[k], name, Some(t))) && a[k].id == b[k].id
    {
      CodicesDifferInVoidKind(k);
    }
    FirstMatchAgrees(a, b, name, Some(t));
  }

  /** The two codices differ only in the kind of the void entries. */
  lemma CodicesDifferInVoidKind(k: nat)
    requires k < |Codex|
    ensures CodexAsWritten[k] == Codex[k] ||
            (CodexAsWritten[k] == Codex[k].(kind := None) && Codex[k].kind == Some(VoidSentinel))
  {
  }

  /** Two codices whose entries match alike answer a `find` alike. */
  lemma FirstMatchAgrees(a: seq<MonsterEntry>, b: seq<MonsterEntry>, name: string, t: Option<BossType>)
    requires |a| == |b|
    requires forall k :: 0 <= k < |a| ==> (Matches(a[k], name, t) <==> Matches(b[k], name, t))
    ensures FindIndex(a, name, t) == FindIndex(b, name, t)
  {
  }
}
