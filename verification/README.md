# Spell resolver model

A Dafny model of the `Spell` item class of a Pathfinder 2e rules engine. A
`Spell` is built from an authored spell record and an optional casting scope:
the casting actor and a cast level the caller asks for. From these it derives:

- the classification flags: cantrip, focus spell, ritual, and auto-scaling;
- the effective cast level. Cantrips, the level-11 placeholder and focus
  spells are cast at the ceiling of half the actor's level. Other spells use
  the requested level, or the spell's own level when none was requested;
- the heightened damage formulas. A mode-keyed divisor table (`level1` ..
  `level4`) decides how many extra copies of the scaling formula a cast
  earns;
- the ordered damage contributions handed to the dice roller: the base
  formula, the casting ability modifier, the Dangerous Sorcery cast level,
  then the heightened formulas.

The spellcasting entry is resolved on first use and memoised.

Files:

- `spell_data.dfy` (module `SpellData`): the spell record, the actor and the
  entry view, the damage contributions, and `Option`/`Result`.
- `spell.dfy` (module `SpellItem`): the divisor table, the heightening
  arithmetic, `Array(n).fill`, `Array.prototype.find`, and class `Spell`.
- `spell_lemmas.dfy` (module `SpellLemmas`): properties that relate several
  members, and two callers that read the memoised getters twice.

The class keeps its inputs as `const` fields. The memo `_spellcastingEntry`
is the one mutable field, `cachedEntry`. A ghost counter `lookups` records how
many times the entry was resolved, and `Valid()` keeps it at most 1. The getters that
are single expressions are functions. `heightenedParts` and `damageParts`
build their results step by step in the source, so they are methods. Each is
proved equal to a specification function (`HeightenedPartsOf`,
`DamagePartsOf`), and the lemmas state what those functions mean. The
`damage` getter is a plain field read, `data.damage`.

Behaviour follows the code as written, including where it departs from the
game rules:

- A requested cast level of `0` counts as no request (`castLevel || spellLevel`).
- The Dangerous Sorcery test compares the result of `find` with `null`.
  The model takes the actor's `items` to be an array, whose `find` yields
  `undefined`, never `null`; so in the model the bonus applies whether or not
  the actor owns the feat, although the Dangerous Sorcery feat is meant to
  benefit only its owners.
- A negative heightening count is not treated as zero. `Array(n)` throws a
  `RangeError` for it, and also for a count above 2^32 - 1. The model returns
  `Err(InvalidArrayLength(n))` from `heightenedParts` and from
  `damageParts`: a negative count is an error, not an empty list.
- When `applyMod` is set with neither a casting entry nor trick-magic-item
  data, the code raises no error and reads the entry's ability; so does the
  model.

## Model

| member | source | states |
|---|---|---|
| `SpellItem.Spell.constructor` | src/module/item/spell.ts:14-18 | keeps the record and the scope's actor, stores the initial cast level, and leaves the entry memo empty |
| `SpellItem.InitialCastLevel` | src/module/item/spell.ts:17 | a non-zero requested cast level is kept; a missing one or `0` gives the spell's level |
| `SpellItem.Spell.SpellcastingEntryId` | src/module/item/spell.ts:20-22 | the entry id is the record's location |
| `SpellItem.Spell.ResolveEntry` | src/module/item/spell.ts:26-28 | the uncached lookup: the actor's entry view for the spell's location, and an entry without data when there is no actor |
| `SpellItem.Spell.SpellcastingEntry` | src/module/item/spell.ts:24-31 | returns the resolved entry; resolves it only when nothing is cached; a cached entry is served without resolving again, and the resolution count never exceeds one |
| `SpellItem.Spell.SpellLevel` | src/module/item/spell.ts:33-35 | the spell's level is the record's level |
| `SpellItem.Spell.HeightenedLevel` | src/module/item/spell.ts:37-39 | a recorded heightened level is returned even when it is 0; the spell's level is used only when none is recorded |
| `SpellItem.Spell.DamageValue` | src/module/item/spell.ts:45-50 | null exactly when the damage value is missing, empty or `"0"`; otherwise the value itself |
| `SpellItem.Spell.ModifierAbility` | src/module/item/spell.ts:55-61 | the trick-magic-item ability when the entry has no data and trick data exists; the entry's ability in every other case, with no error |
| `SpellItem.Find` | src/module/item/spell.ts:63 | over an array of items, `find` never yields `null`; it yields an item exactly when one has the name, and that item has the name |
| `SpellItem.Spell.DangerousSorceryBonus` | src/module/item/spell.ts:62-67 | the cast-level bonus applies iff the duration is empty, the actor has an item list, the spell is not a focus spell and its level is not 0; with the items taken to be an array, whether the feat is owned plays no part |
| `SpellItem.Spell.DamagePartsOf` | src/module/item/spell.ts:52-70 | fails exactly when the heightened parts fail, with the same error |
| `SpellItem.Spell.DamageParts` | src/module/item/spell.ts:52-70 | the list built push by push equals the specification for the actor's entry; the entry memo is filled when `applyMod` is set and left as it was otherwise |
| `SpellLemmas.EntryReadTwice` | src/module/item/spell.ts:24-31 | two successive reads of the entry return the same entry, and the entry has been resolved exactly once |
| `SpellLemmas.DamagePartsReadTwice` | src/module/item/spell.ts:52-70 | two successive reads of the damage contributions return the same result; the entry has then been resolved exactly once when `applyMod` is set, and the resolution count is unchanged otherwise |
| `SpellLemmas.DamagePartsLayout` | src/module/item/spell.ts:52-70 | on success the list is the base formula (if any), then the ability modifier (if asked for), then the cast level (if the bonus applies), then every heightened formula in order, and nothing else |
| `SpellItem.Spell.Scaling` | src/module/item/spell.ts:72-74 | the record's scaling rule when present; otherwise an empty formula with a mode outside the table |
| `SpellItem.Spell.CastLevel` | src/module/item/spell.ts:78-83 | for an auto-scaling spell the result is the ceiling of half the actor's level; otherwise the stored cast level |
| `SpellLemmas.CastLevelRule` | src/module/item/spell.ts:78-83 | auto-scaling spells are cast at `(level + 1) / 2` whatever was requested; other spells at a non-zero requested level, else at the spell's level |
| `SpellLemmas.AutoScalingIgnoresOverride` | src/module/item/spell.ts:79-81 | two spells on the same auto-scaling record with actors of equal level get the same cast level, whatever each requested |
| `SpellItem.Spell.AutoScalingSpell` | src/module/item/spell.ts:85-87 | auto-scaling iff the level is 0 or 11 or the record's traditions include `"focus"` |
| `SpellItem.Spell.IsCantrip` | src/module/item/spell.ts:89-91 | cantrip iff the record's level is 0 |
| `SpellItem.Spell.IsFocusSpell` | src/module/item/spell.ts:93-95 | focus spell iff the record has traditions and they include `"focus"` |
| `SpellItem.Spell.IsRitual` | src/module/item/spell.ts:97-99 | ritual iff the record has traditions and they include `"ritual"` |
| `SpellLemmas.ClassificationRules` | src/module/item/spell.ts:85-95 | a spell auto-scales exactly when it is a cantrip, the level-11 placeholder or a focus spell |
| `SpellItem.Spell.Traditions` | src/module/item/spell.ts:101-103 | the recorded traditions when present, otherwise the empty list |
| `SpellItem.HeighteningModes` | src/module/item/spell.ts:105-112 | the four known modes have divisors between 1 and 4; every other mode has none |
| `SpellItem.EffectiveSpellLevel` | src/module/item/spell.ts:119-122 | the spell's level when it lies in 1 .. 10, otherwise 1; always within 1 .. 10 |
| `SpellItem.PartCount` | src/module/item/spell.ts:123-124 | the count is the floor of the levels gained over the divisor: `d * n <= gained < d * (n + 1)` |
| `SpellLemmas.PartCountStep` | src/module/item/spell.ts:123-124 | casting `d` levels higher earns exactly one more heightened part |
| `SpellLemmas.PartCountMonotone` | src/module/item/spell.ts:123-124 | a higher cast level never earns fewer parts |
| `SpellLemmas.NoPartsAtBaseLevel` | src/module/item/spell.ts:119-124 | casting at the level heightening counts from earns no parts |
| `SpellItem.Filled` | src/module/item/spell.ts:125 | `Array(n).fill(x)` has length `n` and every element is `x` |
| `SpellItem.Spell.HeightenedPartsOf` | src/module/item/spell.ts:114-129 | empty without a formula or a known mode; otherwise `n` copies of the formula for the count `n`, and a `RangeError` exactly when `n` is negative or above 2^32 - 1 |
| `SpellItem.Spell.HeightenedParts` | src/module/item/spell.ts:114-129 | the step-by-step getter yields what `HeightenedPartsOf` specifies |
| `SpellLemmas.BelowBaseLevelFails` | src/module/item/spell.ts:123-125 | a cast level below the level heightening counts from makes the heightened parts, and so the damage parts, fail |
| `SpellLemmas.NoHeighteningWithoutRule` | src/module/item/spell.ts:116-118 | an empty formula or a mode outside the table gives no parts and no error |
| `SpellLemmas.HeighteningExample` | src/module/item/spell.ts:114-129 | a level-3 spell with rule `level2`/`1d6` cast at level 7 gains exactly two `1d6` parts |
| `SpellLemmas.NoDamageNoParts` | src/module/item/spell.ts:45-69 | a `"0"` damage value with no modifier, no bonus and no heightening gives an empty list |
| `SpellLemmas.DangerousSorceryExample` | src/module/item/spell.ts:62-67 | an instantaneous level-2 non-focus spell cast at 5 by an actor with an item list has the contribution 5, feat or not |
| `SpellLemmas.DurationRemovesBonus` | src/module/item/spell.ts:62 | a spell with a duration never gets the Dangerous Sorcery contribution |

## Left out

- The diagnostic `console.log` when the Dangerous Sorcery bonus is added: output only, with no effect on any result.
- The internals of the actor and of `SpellcastingEntry`, which are not part of this model. The actor is reduced to its level, an ability-modifier function, an optional list of item names, and the entry view it yields for an item id. The entry is reduced to a `hasData` flag and an ability.
- The ability reported by an entry built with no actor at all: fixed to an arbitrary value (`EntryWithoutData`). Every path that reads an entry's ability has an actor, so no modelled result depends on it.
- Parsing or evaluating damage formulas: formulas are opaque strings that are only copied.
- JavaScript property lookups of the mode on the divisor table (inherited keys such as `toString`): the mode is a five-way enumeration, with every key outside `level1` .. `level4` as `OtherMode`.
- The `TypeError` an undefined actor raises on the paths that dereference it: `CastLevel` requires `CastLevelDefined` (an actor, unless the spell does not auto-scale), and `DamageParts` requires `DamagePartsDefined` (an actor when `applyMod` is set, and a defined cast level when heightening applies).
- Non-integer and `NaN` numbers: levels and cast levels are integers, so `Math.floor` and `Math.ceil` are Dafny's division by a positive divisor.
- Writes to `_castLevel` from outside the class: it is a field the class itself never changes after construction, so the model makes it a constant.
- The type of the actor's `items` collection: taken to be an array with `Array.prototype.find`. If the host collection's `find` yields `null` on no match, the test at spell.ts:64 is effective and the bonus needs the feat; this model does not capture that.
- The string-or-number element type of the damage list is a tagged union, `Formula` or `Number`.
