/**
 * The archetype catalog: the `Character` constructor of
 * public/characters/Character.js, a fixed stat table keyed by the
 * archetype's name. A name outside the table assigns only the name.
 */
module Characters {
  import opened Wrappers

  /** The three attacks every archetype has. */
  datatype AttackKind = Basic | Special | Ult

  /** One number per attack kind (the `attacks` and `knockbacks` objects). */
  datatype Table = Table(basic: real, special: real, ult: real)
  {
    function Get(kind: AttackKind): real
    {
      match kind
      case Basic => basic
      case Special => special
      case Ult => ult
    }

    /** Each attack is stronger than the one before it. */
    predicate Escalates()
    {
      basic < special < ult
    }
  }

  /** The stats an archetype assigns besides its name. */
  datatype Stats = Stats(health: real, damage: real, speed: real, attacks: Table, knockbacks: Table)

  /** A constructed `Character`: its `type` field and, for a known name, its stats. */
  datatype Character = Character(typeName: string, stats: Option<Stats>)

  /** The names the catalog knows. */
  predicate Known(name: string)
  {
    name == "vexa" || name == "glyph"
  }

  const VexaStats: Stats := Stats(100.0, 10.0, 5.0, Table(12.0, 25.0, 70.0), Table(5.0, 10.0, 20.0))
  const GlyphStats: Stats := Stats(80.0, 15.0, 4.0, Table(4.0, 45.0, 80.0), Table(2.0, 6.0, 12.0))

  /**
   * `new Character(name)`: the name is always recorded; exactly the known
   * names get stats, and every known archetype has positive health and
   * attacks and knockbacks that grow from basic to special to ult.
   */
  function NewCharacter(name: string): (c: Character)
    ensures c.typeName == name
    ensures c.stats.Some? <==> Known(name)
    ensures name == "vexa" ==> c.stats == Some(VexaStats)
    ensures name == "glyph" ==> c.stats == Some(GlyphStats)
    ensures c.stats.Some? ==> c.stats.value.health > 0.0
    ensures c.stats.Some? ==> c.stats.value.attacks.Escalates() && c.stats.value.knockbacks.Escalates()
  {
    if name == "vexa" then Character(name, Some(VexaStats))
    else if name == "glyph" then Character(name, Some(GlyphStats))
    else Character(name, None)
  }

  /**
   * The two archetypes differ as the table sets them: vexa is sturdier and faster,
   * glyph deals more base damage and its special and ult hit harder.
   */
  lemma ArchetypeContrast()
    ensures NewCharacter("vexa").stats.value.health > NewCharacter("glyph").stats.value.health
    ensures NewCharacter("vexa").stats.value.speed > NewCharacter("glyph").stats.value.speed
    ensures NewCharacter("glyph").stats.value.attacks.special > NewCharacter("vexa").stats.value.attacks.special
    ensures NewCharacter("glyph").stats.value.attacks.ult > NewCharacter("vexa").stats.value.attacks.ult
    ensures NewCharacter("glyph").stats.value.damage > NewCharacter("vexa").stats.value.damage
  {
  }
}
