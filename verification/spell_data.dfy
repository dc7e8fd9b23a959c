/**
 The data a spell is resolved from: the authored spell record, the casting
 context handed to the constructor, and the two foreign collaborators (the
 casting actor and the spellcasting-entry view), reduced to what the spell
 resolver reads of them.
 */
module SpellData {

  datatype Option<+T> = None | Some(value: T)

  /** An `Err` carries the error a JavaScript `RangeError` would raise. */
  datatype Result<+R> = Ok(value: R) | Err(error: RangeError)

  /** `Array(n)` refuses a length that is not an unsigned 32-bit integer. */
  datatype RangeError = InvalidArrayLength(length: int)

  /** The six ability scores of the rules system. */
  datatype Ability = Str | Dex | Con | Int | Wis | Cha

  /** The `scaling.mode` key: the four keys of the divisor table, or any other string. */
  datatype HeighteningMode = Level1 | Level2 | Level3 | Level4 | OtherMode

  datatype Scaling = Scaling(formula: string, mode: HeighteningMode)

  /** `damage.value` is optional; `applyMod` asks for the casting ability modifier. */
  datatype Damage = Damage(value: Option<string>, applyMod: bool)

  /**
   The authored spell record (`data.data` of the item). Optional fields are
   `Option`s; `scaling` and `traditions` may be missing altogether.
   */
  datatype SpellRecord = SpellRecord(
    name: string,
    level: int,
    heightenedLevel: Option<int>,
    damage: Damage,
    durationValue: string,
    scaling: Option<Scaling>,
    traditions: Option<seq<string>>,
    trickMagicItemAbility: Option<Ability>,
    location: string)

  /**
   The view a spellcasting entry gives of itself: whether it wraps real item
   data (`data` truthy) and the ability it names.
   */
  datatype CastingEntry = CastingEntry(hasData: bool, ability: Ability)

  /**
   The casting actor, as far as the resolver reads it: its level, its
   ability-modifier lookup, the names of its items when it has an item
   collection, and the entry view built from the item it owns under an id
   (an entry without data when it owns none).
   */
  datatype Actor = Actor(
    level: int,
    getAbilityMod: Ability -> int,
    items: Option<seq<string>>,
    ownedEntry: string -> CastingEntry)

  /** The optional second constructor argument. */
  datatype Scope = Scope(castingActor: Option<Actor>, castLevel: Option<int>)

  /** One damage contribution: a formula string or a number. */
  datatype DamagePart = Formula(formula: string) | Number(number: int)

  /** The JavaScript values `Array.prototype.find` is compared against. */
  datatype JsValue = Null | Undefined | ItemRef(name: string)
}
