/**
 The spell resolver: a `Spell` wraps an authored spell record and a casting
 context and derives the cast level, the classification flags, the heightened
 damage formulas and the ordered list of damage contributions. Its only
 mutable state is the memo of the spellcasting-entry lookup.
 */
module SpellItem {
  import opened SpellData

  /** `Array(n)` accepts the lengths 0 .. 2^32 - 1 and throws a `RangeError` otherwise. */
  const MaxArrayLength: int := 0xFFFF_FFFF

  /** The item name the Dangerous Sorcery search looks for. */
  const DangerousSorcery: string := "Dangerous Sorcery"

  /**
   The view `new SpellcastingEntry(undefined)` gives when there is no actor to
   ask. Its ability is whatever the foreign entry class reports; every path
   that reads it has an actor, so the value chosen here is never observed.
   */
  const EntryWithoutData: CastingEntry := CastingEntry(false, Int)

  /** The divisor table `heighteningModes`: `level1` .. `level4` map to 1 .. 4, any other key to nothing. */
  function HeighteningModes(mode: HeighteningMode): (d: Option<int>)
    ensures d.None? <==> mode == OtherMode
    ensures d.Some? ==> 1 <= d.value <= 4
  {
    match mode
    case Level1 => Some(1)
    case Level2 => Some(2)
    case Level3 => Some(3)
    case Level4 => Some(4)
    case OtherMode => None
  }

  /** The level heightening counts from: the spell's own level inside 1 .. 10, otherwise 1. */
  function EffectiveSpellLevel(spellLevel: int): (r: int)
    ensures 1 <= r <= 10
    ensures 0 < spellLevel < 11 ==> r == spellLevel
    ensures !(0 < spellLevel < 11) ==> r == 1
  {
    if spellLevel > 0 && spellLevel < 11 then spellLevel else 1
  }

  /** How many extra copies of the scaling formula a cast earns: the floor of the levels gained over the divisor. */
  function PartCount(castLevel: int, spellLevel: int, divisor: int): (n: int)
    requires divisor > 0
    ensures divisor * n <= castLevel - EffectiveSpellLevel(spellLevel) < divisor * (n + 1)
  {
    (castLevel - EffectiveSpellLevel(spellLevel)) / divisor
  }

  /** The lengths `Array(n)` accepts. */
  predicate ValidArrayLength(n: int) {
    0 <= n <= MaxArrayLength
  }

  /** `Array(n).fill(x)`: `n` copies of `x`. */
  function Filled(n: nat, x: string): (r: seq<string>)
    ensures |r| == n
    ensures forall i :: 0 <= i < n ==> r[i] == x
  {
    if n == 0 then [] else Filled(n - 1, x) + [x]
  }

  /**
   `items.find(it => it.name === name)`, taking the actor's items to be an
   array: `Array.prototype.find` yields the first item with that name, or
   `undefined`, and never `null`.
   */
  function Find(items: seq<string>, name: string): (r: JsValue)
    ensures r != Null
    ensures r.ItemRef? <==> name in items
    ensures r.ItemRef? ==> r.name == name
  {
    if items == [] then Undefined
    else if items[0] == name then ItemRef(items[0])
    else Find(items[1..], name)
  }

  /** Tags each heightened formula string as a damage contribution. */
  function Formulas(strings: seq<string>): seq<DamagePart>
  {
    seq(|strings|, i requires 0 <= i < |strings| => Formula(strings[i]))
  }

  /** `scope?.castLevel || spellLevel`: an override of 0 counts as no override. */
  function InitialCastLevel(castLevel: Option<int>, spellLevel: int): (r: int)
    ensures castLevel.Some? && castLevel.value != 0 ==> r == castLevel.value
    ensures castLevel.None? || castLevel.value == 0 ==> r == spellLevel
  {
    if castLevel.Some? && castLevel.value != 0 then castLevel.value else spellLevel
  }

  class Spell {
    const data: SpellRecord
    const castingActor: Option<Actor>
    /** The cast level fixed at construction (`_castLevel`). */
    const storedCastLevel: int
    /** The override the caller passed, kept for the specification. */
    ghost const requestedCastLevel: Option<int>
    /** The memo `_spellcastingEntry`: `None` until the entry is first read. */
    var cachedEntry: Option<CastingEntry>
    /** How many times this instance has resolved its entry. */
    ghost var lookups: nat

    ghost predicate Valid()
      reads this
    {
      && storedCastLevel == InitialCastLevel(requestedCastLevel, data.level)
      && (cachedEntry.Some? ==> cachedEntry.value == ResolveEntry())
      && lookups == (if cachedEntry.Some? then 1 else 0)
    }

    constructor (data: SpellRecord, scope: Option<Scope>)
      ensures this.data == data
      ensures castingActor == (if scope.Some? then scope.value.castingActor else None)
      ensures requestedCastLevel == (if scope.Some? then scope.value.castLevel else None)
      ensures storedCastLevel == InitialCastLevel(requestedCastLevel, data.level)
      ensures cachedEntry == None
      ensures Valid()
    {
      this.data := data;
      castingActor := if scope.Some? then scope.value.castingActor else None;
      requestedCastLevel := if scope.Some? then scope.value.castLevel else None;
      storedCastLevel := InitialCastLevel(if scope.Some? then scope.value.castLevel else None, data.level);
      cachedEntry := None;
      lookups := 0;
    }

    /** The id of the entry the spell is cast through: the record's location. */
    function SpellcastingEntryId(): (id: string)
      ensures id == data.location
    {
      data.location
    }

    /**
     The entry for this spell's location, uncached: the actor's entry view for
     that id, or an entry without data when there is no actor to ask.
     */
    function ResolveEntry(): (entry: CastingEntry)
      ensures castingActor.None? ==> !entry.hasData
      ensures castingActor.Some? ==> entry == castingActor.value.ownedEntry(data.location)
    {
      match castingActor
      case None => EntryWithoutData
      case Some(actor) => actor.ownedEntry(SpellcastingEntryId())
    }

    /** The `spellcastingEntry` getter: looks the entry up on first read only, then serves the memo. */
    method SpellcastingEntry() returns (entry: CastingEntry)
      requires Valid()
      modifies this`cachedEntry, this`lookups
      ensures Valid()
      ensures entry == ResolveEntry() && cachedEntry == Some(entry)
      ensures lookups == 1
      ensures old(cachedEntry).Some? ==> entry == old(cachedEntry).value && lookups == old(lookups)
    {
      if cachedEntry.None? {
        var resolved := ResolveEntry();
        lookups := lookups + 1;
        cachedEntry := Some(resolved);
      }
      entry := cachedEntry.value;
    }

    /** The record's base level; 0 is a cantrip. */
    function SpellLevel(): (level: int)
      ensures level == data.level
    {
      data.level
    }

    function HeightenedLevel(): (r: int)
      ensures data.heightenedLevel.Some? ==> r == data.heightenedLevel.value
      ensures data.heightenedLevel.None? ==> r == SpellLevel()
    {
      match data.heightenedLevel
      case Some(level) => level
      case None => SpellLevel()
    }

    /** The base damage formula, or `null` when it is missing, empty or `"0"`. */
    function DamageValue(): (r: Option<string>)
      ensures r.Some? <==> data.damage.value.Some? && data.damage.value.value != "" && data.damage.value.value != "0"
      ensures r.Some? ==> r == data.damage.value
    {
      match data.damage.value
      case Some(value) => if value != "" && value != "0" then Some(value) else None
      case None => None
    }

    /** The scaling rule, or an empty formula with an unknown mode when the record has none. */
    function Scaling(): (s: Scaling)
      ensures data.scaling.Some? ==> s == data.scaling.value
      ensures data.scaling.None? ==> s.formula == "" && s.mode == OtherMode
    {
      if data.scaling.Some? then data.scaling.value else SpellData.Scaling("", OtherMode)
    }

    function Traditions(): (t: seq<string>)
      ensures data.traditions.Some? ==> t == data.traditions.value
      ensures data.traditions.None? ==> t == []
    {
      if data.traditions.Some? then data.traditions.value else []
    }

    predicate IsCantrip()
      ensures IsCantrip() <==> data.level == 0
    {
      SpellLevel() == 0
    }

    /** A focus spell lists `"focus"` among its traditions; a record without traditions has none. */
    predicate IsFocusSpell()
      ensures IsFocusSpell() <==> data.traditions.Some? && "focus" in data.traditions.value
    {
      "focus" in Traditions()
    }

    predicate IsRitual()
      ensures IsRitual() <==> data.traditions.Some? && "ritual" in data.traditions.value
    {
      "ritual" in Traditions()
    }

    /** Cantrips, the level-11 placeholder and focus spells scale with the actor. */
    predicate AutoScalingSpell()
      ensures AutoScalingSpell() <==>
        data.level == 0 || data.level == 11 || (data.traditions.Some? && "focus" in data.traditions.value)
    {
      SpellLevel() == 0 || SpellLevel() == 11 || IsFocusSpell()
    }

    /** `castLevel` can be computed: an auto-scaling spell needs an actor to read the level of. */
    predicate CastLevelDefined() {
      castingActor.Some? || !AutoScalingSpell()
    }

    /** Auto-scaling spells are cast at the ceiling of half the actor's level; others at the stored level. */
    function CastLevel(): (r: int)
      requires CastLevelDefined()
      ensures AutoScalingSpell() ==> 2 * r - 2 < castingActor.value.level <= 2 * r
      ensures !AutoScalingSpell() ==> r == storedCastLevel
    {
      if AutoScalingSpell() then (castingActor.value.level + 1) / 2 else storedCastLevel
    }

    /** Heightening adds parts only for a non-empty formula under a mode the table knows. */
    predicate HeighteningApplies() {
      Scaling().formula != "" && HeighteningModes(Scaling().mode).Some?
    }

    /** What `heightenedParts` yields: the formula repeated once per step, or the `RangeError` of `Array(n)`. */
    function HeightenedPartsOf(): (r: Result<seq<string>>)
      requires HeighteningApplies() ==> CastLevelDefined()
      ensures !HeighteningApplies() ==> r == Ok([])
      ensures HeighteningApplies() ==>
        var n := PartCount(CastLevel(), SpellLevel(), HeighteningModes(Scaling().mode).value);
        && (r.Err? <==> !ValidArrayLength(n))
        && (r.Ok? ==> |r.value| == n && forall i :: 0 <= i < n ==> r.value[i] == Scaling().formula)
    {
      if !HeighteningApplies() then Ok([])
      else
        var n := PartCount(CastLevel(), SpellLevel(), HeighteningModes(Scaling().mode).value);
        if ValidArrayLength(n) then Ok(Filled(n, Scaling().formula)) else Err(InvalidArrayLength(n))
    }

    /** The `heightenedParts` getter, step by step as the source computes it. */
    method HeightenedParts() returns (r: Result<seq<string>>)
      requires HeighteningApplies() ==> CastLevelDefined()
      ensures r == HeightenedPartsOf()
    {
      var parts: seq<string> := [];
      var scaling := Scaling();
      if scaling.formula != "" {
        var heighteningDivisor := HeighteningModes(scaling.mode);
        if heighteningDivisor.Some? {
          var effectiveSpellLevel := 1;
          if SpellLevel() > 0 && SpellLevel() < 11 {
            effectiveSpellLevel := SpellLevel();
          }
          var partCount := CastLevel() - effectiveSpellLevel;
          partCount := partCount / heighteningDivisor.value;
          if partCount < 0 || partCount > MaxArrayLength {
            return Err(InvalidArrayLength(partCount));
          }
          parts := Filled(partCount, scaling.formula);
        }
      }
      return Ok(parts);
    }

    /** The ability whose modifier is added: the trick-magic-item one for an entry without data, else the entry's. */
    function ModifierAbility(entry: CastingEntry): (a: Ability)
      ensures !entry.hasData && data.trickMagicItemAbility.Some? ==> a == data.trickMagicItemAbility.value
      ensures entry.hasData || data.trickMagicItemAbility.None? ==> a == entry.ability
    {
      if !entry.hasData && data.trickMagicItemAbility.Some? then data.trickMagicItemAbility.value else entry.ability
    }

    /**
     Whether the cast level is added as Dangerous Sorcery damage. The feat
     search is compared against `null`; with the actor's items taken to be an
     array, `find` never returns `null`, so owning the feat plays no part in
     the outcome.
     */
    predicate DangerousSorceryBonus()
      ensures DangerousSorceryBonus() <==>
        && data.durationValue == ""
        && castingActor.Some? && castingActor.value.items.Some?
        && !IsFocusSpell() && SpellLevel() != 0
    {
      && data.durationValue == ""
      && castingActor.Some? && castingActor.value.items.Some?
      && Find(castingActor.value.items.value, DangerousSorcery) != Null
      && !IsFocusSpell() && SpellLevel() != 0
    }

    /** `damageParts` reaches no undefined actor: the modifier and a heightened auto-scaling spell both need one. */
    predicate DamagePartsDefined() {
      && (data.damage.applyMod ==> castingActor.Some?)
      && (HeighteningApplies() ==> CastLevelDefined())
    }

    /**
     The damage contributions for a given entry view: base formula, ability
     modifier, Dangerous Sorcery cast level, then the heightened formulas.
     */
    function DamagePartsOf(entry: CastingEntry): (r: Result<seq<DamagePart>>)
      requires DamagePartsDefined()
      ensures r.Err? <==> HeightenedPartsOf().Err?
      ensures r.Err? ==> r.error == HeightenedPartsOf().error
    {
      match HeightenedPartsOf()
      case Err(e) => Err(e)
      case Ok(heightened) => Ok(DamagePrefix(entry) + Formulas(heightened))
    }

    /** The contributions ahead of the heightened formulas. */
    function DamagePrefix(entry: CastingEntry): seq<DamagePart>
      requires DamagePartsDefined()
    {
      var base := if DamageValue().Some? then [Formula(DamageValue().value)] else [];
      var modifier :=
        if data.damage.applyMod then [Number(castingActor.value.getAbilityMod(ModifierAbility(entry)))] else [];
      var bonus := if DangerousSorceryBonus() then [Number(CastLevel())] else [];
      base + modifier + bonus
    }

    /** The `damageParts` getter, building the list push by push as the source does. */
    method DamageParts() returns (r: Result<seq<DamagePart>>)
      requires Valid() && DamagePartsDefined()
      modifies this`cachedEntry, this`lookups
      ensures Valid()
      ensures r == DamagePartsOf(ResolveEntry())
      ensures data.damage.applyMod ==> cachedEntry == Some(ResolveEntry())
      ensures !data.damage.applyMod ==> cachedEntry == old(cachedEntry) && lookups == old(lookups)
    {
      var parts: seq<DamagePart> := [];
      if DamageValue().Some? {
        parts := parts + [Formula(data.damage.value.value)];
      }
      if data.damage.applyMod {
        var entry := SpellcastingEntry();
        if !entry.hasData && data.trickMagicItemAbility.Some? {
          parts := parts + [Number(castingActor.value.getAbilityMod(data.trickMagicItemAbility.value))];
        } else {
          entry := SpellcastingEntry();
          parts := parts + [Number(castingActor.value.getAbilityMod(entry.ability))];
        }
      }
      if data.durationValue == "" && castingActor.Some? && castingActor.value.items.Some? {
        var featDangerousSorcery := Find(castingActor.value.items.value, DangerousSorcery);
        if featDangerousSorcery != Null && !IsFocusSpell() && SpellLevel() != 0 {
          parts := parts + [Number(CastLevel())];
        }
      }
      assert parts == DamagePrefix(ResolveEntry());
      var heightened := HeightenedParts();
      match heightened
      case Err(e) => r := Err(e);
      case Ok(h) => r := Ok(parts + Formulas(h));
    }
  }
}
