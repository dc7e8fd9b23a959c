/**
 Properties of the spell resolver that relate several of its members: the
 classification rules, the cast-level policy, the heightening rule and the
 order of the damage contributions.
 */
module SpellLemmas {
  import opened SpellData
  import opened SpellItem

  /** Cantrips, focus spells and the level-11 placeholder all auto-scale, and nothing else does. */
  lemma ClassificationRules(s: Spell)
    ensures s.AutoScalingSpell() <==> s.IsCantrip() || s.data.level == 11 || s.IsFocusSpell()
  {
  }

  /**
   The cast level: the ceiling of half the actor's level for an auto-scaling
   spell, else a non-zero override, else the spell's level.
   */
  lemma CastLevelRule(s: Spell)
    requires s.Valid() && s.CastLevelDefined()
    ensures s.AutoScalingSpell() ==> s.CastLevel() == (s.castingActor.value.level + 1) / 2
    ensures !s.AutoScalingSpell() && s.requestedCastLevel.Some? && s.requestedCastLevel.value != 0 ==>
      s.CastLevel() == s.requestedCastLevel.value
    ensures !s.AutoScalingSpell() && (s.requestedCastLevel.None? || s.requestedCastLevel.value == 0) ==>
      s.CastLevel() == s.data.level
  {
  }

  /** Two spells on the same record and an actor of the same level agree on an auto-scaling cast level, whatever was requested. */
  lemma AutoScalingIgnoresOverride(s: Spell, t: Spell)
    requires s.data == t.data && s.AutoScalingSpell()
    requires s.castingActor.Some? && t.castingActor.Some?
    requires s.castingActor.value.level == t.castingActor.value.level
    ensures s.CastLevel() == t.CastLevel()
  {
  }

  /** Comparing two multiples of the same positive divisor compares the factors. */
  lemma ScaledLess(divisor: int, a: int, b: int)
    requires divisor > 0 && divisor * a < divisor * b
    ensures a < b
  {
  }

  /** Casting `divisor` levels higher earns exactly one more heightened part. */
  lemma PartCountStep(castLevel: int, spellLevel: int, divisor: int)
    requires divisor > 0
    ensures PartCount(castLevel + divisor, spellLevel, divisor) == PartCount(castLevel, spellLevel, divisor) + 1
  {
    var n := PartCount(castLevel, spellLevel, divisor);
    var m := PartCount(castLevel + divisor, spellLevel, divisor);
    ScaledLess(divisor, m, n + 2);
    ScaledLess(divisor, n + 1, m + 1);
  }

  /** More cast levels never mean fewer heightened parts. */
  lemma PartCountMonotone(low: int, high: int, spellLevel: int, divisor: int)
    requires divisor > 0 && low <= high
    ensures PartCount(low, spellLevel, divisor) <= PartCount(high, spellLevel, divisor)
  {
  }

  /** A spell cast at the level it counts from gains no heightened parts. */
  lemma NoPartsAtBaseLevel(spellLevel: int, divisor: int)
    requires divisor > 0
    ensures PartCount(EffectiveSpellLevel(spellLevel), spellLevel, divisor) == 0
  {
  }

  /** Casting below the level heightening counts from makes `Array(n)` throw, and with it `damageParts`. */
  lemma BelowBaseLevelFails(s: Spell, entry: CastingEntry)
    requires s.DamagePartsDefined() && s.HeighteningApplies()
    requires s.CastLevel() < EffectiveSpellLevel(s.SpellLevel())
    ensures s.HeightenedPartsOf().Err?
    ensures s.DamagePartsOf(entry).Err?
  {
  }

  /** No formula or a mode outside the table: no heightened parts, and no error. */
  lemma NoHeighteningWithoutRule(s: Spell)
    requires s.Scaling().formula == "" || s.Scaling().mode == OtherMode
    ensures s.HeightenedPartsOf() == Ok([])
  {
  }

  /** A level-3 spell with a `level2` rule for `1d6`, cast at level 7, gains two `1d6` parts. */
  lemma HeighteningExample(s: Spell)
    requires s.data.scaling == Some(SpellData.Scaling("1d6", Level2)) && s.data.level == 3
    requires s.CastLevelDefined() && s.CastLevel() == 7
    ensures s.HeightenedPartsOf() == Ok(["1d6", "1d6"])
  {
    assert PartCount(7, 3, 2) == 2;
    var r := s.HeightenedPartsOf();
    assert |r.value| == 2 && r.value[0] == "1d6" && r.value[1] == "1d6";
    assert r.value == ["1d6", "1d6"];
  }

  /**
   The order of the damage contributions: the base formula if there is one,
   then the ability modifier if asked for, then the cast level if the
   Dangerous Sorcery bonus applies, then every heightened formula.
   */
  lemma DamagePartsLayout(s: Spell, entry: CastingEntry)
    requires s.DamagePartsDefined() && s.HeightenedPartsOf().Ok?
    ensures var parts := s.DamagePartsOf(entry);
      var heightened := s.HeightenedPartsOf().value;
      var b := if s.DamageValue().Some? then 1 else 0;
      var m := if s.data.damage.applyMod then 1 else 0;
      var k := if s.DangerousSorceryBonus() then 1 else 0;
      && parts.Ok?
      && |parts.value| == b + m + k + |heightened|
      && (b == 1 ==> parts.value[0] == Formula(s.data.damage.value.value))
      && (m == 1 ==> parts.value[b] == Number(s.castingActor.value.getAbilityMod(s.ModifierAbility(entry))))
      && (k == 1 ==> parts.value[b + m] == Number(s.CastLevel()))
      && (forall i :: 0 <= i < |heightened| ==> parts.value[b + m + k + i] == Formula(heightened[i]))
  {
  }

  /** A `"0"` damage value with no modifier, no bonus and no heightening gives no contributions at all. */
  lemma NoDamageNoParts(s: Spell, entry: CastingEntry)
    requires s.data.damage.value == Some("0") && !s.data.damage.applyMod
    requires !s.DangerousSorceryBonus() && !s.HeighteningApplies()
    ensures s.DamagePartsOf(entry) == Ok([])
  {
    assert s.DamagePrefix(entry) == [];
    assert |Formulas([])| == 0;
  }

  /**
   An instantaneous level-2 non-focus spell whose actor has an item list gets
   its cast level as a contribution, whether or not the actor owns Dangerous
   Sorcery; with a duration it does not.
   */
  lemma DangerousSorceryExample(s: Spell, entry: CastingEntry)
    requires s.DamagePartsDefined() && s.HeightenedPartsOf().Ok?
    requires s.data.durationValue == "" && s.data.level == 2 && !s.IsFocusSpell()
    requires s.castingActor.Some? && s.castingActor.value.items.Some?
    requires s.CastLevel() == 5
    ensures s.DamagePartsOf(entry).Ok? && Number(5) in s.DamagePartsOf(entry).value
  {
  }

  /** A spell with a duration never gets the Dangerous Sorcery contribution. */
  lemma DurationRemovesBonus(s: Spell)
    requires s.data.durationValue != ""
    ensures !s.DangerousSorceryBonus()
  {
  }

  /** Reading the entry twice resolves it once and yields the same entry both times. */
  method EntryReadTwice(s: Spell) returns (first: CastingEntry, second: CastingEntry)
    requires s.Valid()
    modifies s`cachedEntry, s`lookups
    ensures s.Valid()
    ensures first == second && s.lookups == 1
  {
    first := s.SpellcastingEntry();
    second := s.SpellcastingEntry();
  }

  /**
   Reading the damage contributions twice yields the same result. The entry
   is resolved once when the modifier needs it, and not at all otherwise.
   */
  method DamagePartsReadTwice(s: Spell) returns (first: Result<seq<DamagePart>>, second: Result<seq<DamagePart>>)
    requires s.Valid() && s.DamagePartsDefined()
    modifies s`cachedEntry, s`lookups
    ensures s.Valid()
    ensures first == second
    ensures s.lookups == (if s.data.damage.applyMod then 1 else old(s.lookups))
  {
    first := s.DamageParts();
    second := s.DamageParts();
  }
}
