/**
 * The authoritative simulation of server.js: the registry of fighters keyed
 * by connection id, the connect / input / disconnect handlers that change it,
 * the two deferred effects (attack cooldown, respawn) and the per-tick update
 * `gameLoop`.
 *
 * Every rule of the tick is first written as a function on values (the
 * specification); the class `Game` then holds the registry and updates it in
 * place, field by field, as the JavaScript does, and each of its methods is
 * proved to agree with those functions.
 */
module Server {
  import opened Wrappers
  import opened Characters

  // Stage size and the tick's global constants.
  const StageWidth: real := 640.0
  const StageHeight: real := 360.0
  const Gravity: real := 0.8
  const Friction: real := 0.8
  const MoveSpeed: real := 5.0
  const JumpPower: real := 15.0

  /** The ground line: a fighter's `y` is never left below it. */
  const Ground: real := StageHeight - 32.0
  /** Where a fighter is placed on connection and on respawn. */
  const SpawnHeight: real := StageHeight - 60.0
  /** Falling past this line kills a fighter. */
  const FallLine: real := StageHeight + 100.0
  /** Half-extent of the square an attack reaches. */
  const Reach: real := 50.0
  /** Knockback keeps this share of itself each tick ... */
  const KnockbackRetained: real := 0.9
  /** ... and snaps to zero once below this. */
  const KnockbackFloor: real := 0.1
  /** Knockback a hit adds per point of the victim's remaining health. */
  const HealthToKnockback: real := 0.3

  /** A client's `playerInput` message. */
  datatype Input = Input(left: bool, right: bool, jump: bool, basic: bool, special: bool, ult: bool)
  {
    function Pressed(kind: AttackKind): bool
    {
      match kind
      case Basic => basic
      case Special => special
      case Ult => ult
    }
  }

  /** What a fighter that never sent input (or sent a null one) acts on. */
  const Idle: Input := Input(false, false, false, false, false, false)

  /** The side a fighter faces: the source's `facing`, which is only ever 1 or -1. */
  datatype Facing = Right | Left
  {
    /** The numeric value the source stores. */
    function Sign(): int
    {
      if Right? then 1 else -1
    }
  }

  /** One registry entry; `input` is absent until the first message arrives. */
  datatype Player = Player(
    x: real, y: real, vx: real, vy: real,
    health: real, maxHealth: real,
    facing: Facing,
    attacking: bool, grounded: bool,
    knockback: real,
    isDead: bool,
    characterType: string,
    attacks: Table, speed: real, knockbacks: Table,
    input: Option<Input>)

  /** The shape every registered fighter keeps: on stage, on or above the ground, alive. */
  ghost predicate Sane(p: Player)
  {
    && 0.0 <= p.x <= StageWidth
    && p.y <= Ground
    && !p.isDead
  }

  ghost predicate AllSane(m: map<string, Player>)
  {
    forall id :: id in m ==> Sane(m[id])
  }

  // ---------------------------------------------------------------------
  // Spawning
  // ---------------------------------------------------------------------

  /** `randomSpawn()`, with the random draw `r` in [0, 1) passed in. */
  function SpawnX(r: real): (x: real)
    requires 0.0 <= r < 1.0
    ensures 50.0 <= x < StageWidth - 50.0
  {
    r * (StageWidth - 100.0) + 50.0
  }

  const CharacterTypes: seq<string> := ["glyph", "vexa"]

  /** The archetype a connection gets, from the random draw `pick` in [0, 1). */
  function PickType(pick: real): (name: string)
    requires 0.0 <= pick < 1.0
    ensures Known(name)
    ensures name == "glyph" <==> pick < 0.5
  {
    CharacterTypes[(pick * |CharacterTypes| as real).Floor]
  }

  /** The fighter a new connection gets, for a known archetype and spawn draw `r`. */
  function Spawn(name: string, r: real): (p: Player)
    requires Known(name)
    requires 0.0 <= r < 1.0
    ensures var stats := NewCharacter(name).stats.value;
      && p.health == p.maxHealth == stats.health > 0.0
      && p.attacks == stats.attacks && p.knockbacks == stats.knockbacks && p.speed == stats.speed
      && p.characterType == name
    ensures 50.0 <= p.x < StageWidth - 50.0 && p.y == SpawnHeight
    ensures p.vx == 0.0 && p.vy == 0.0 && p.facing == Right && p.knockback == 0.0
    ensures !p.attacking && p.grounded && !p.isDead && p.input == None
    ensures Sane(p)
  {
    var stats := NewCharacter(name).stats.value;
    Player(SpawnX(r), SpawnHeight, 0.0, 0.0, stats.health, stats.health, Right, false, true, 0.0, false,
           name, stats.attacks, stats.speed, stats.knockbacks, None)
  }

  // ---------------------------------------------------------------------
  // Movement, one fighter, one tick
  // ---------------------------------------------------------------------

  /** `p.input || {}`: a missing input reads as nothing pressed. */
  function InputOf(p: Player): (i: Input)
    ensures p.input.Some? ==> i == p.input.value
    ensures p.input.None? ==> i == Idle
  {
    match p.input
    case Some(i) => i
    case None => Idle
  }

  /** Horizontal movement: direction keys set the global speed, otherwise friction slows. */
  function Steer(p: Player, i: Input): (q: Player)
    ensures i.left ==> q.vx == -MoveSpeed
    ensures !i.left && i.right ==> q.vx == MoveSpeed
    ensures !i.left && !i.right ==> q.vx == Friction * p.vx
    ensures q == p.(vx := q.vx)
  {
    if i.left then p.(vx := -MoveSpeed)
    else if i.right then p.(vx := MoveSpeed)
    else p.(vx := p.vx * Friction)
  }

  /** Jumping: only a grounded fighter takes off. */
  function Jump(p: Player, i: Input): (q: Player)
    ensures i.jump && p.grounded ==> q.vy == -JumpPower && !q.grounded
    ensures !(i.jump && p.grounded) ==> q == p
    ensures q == p.(vy := q.vy, grounded := q.grounded)
  {
    if i.jump && p.grounded then p.(vy := -JumpPower, grounded := false) else p
  }

  /** Gravity, then one step of integration. */
  function Fall(p: Player): (q: Player)
    ensures q.vy == p.vy + Gravity && q.x == p.x + p.vx && q.y == p.y + q.vy
    ensures q == p.(vy := q.vy, x := q.x, y := q.y)
  {
    var vy := p.vy + Gravity;
    p.(vy := vy, x := p.x + p.vx, y := p.y + vy)
  }

  /** Stage bounds and ground collision. */
  function Clamp(p: Player): (q: Player)
    ensures 0.0 <= q.x <= StageWidth && q.y <= Ground
    ensures 0.0 <= p.x <= StageWidth ==> q.x == p.x
    ensures p.x < 0.0 ==> q.x == 0.0
    ensures p.x > StageWidth ==> q.x == StageWidth
    ensures p.y > Ground ==> q.y == Ground && q.vy == 0.0 && q.grounded
    ensures p.y <= Ground ==> q.y == p.y && q.vy == p.vy && q.grounded == p.grounded
    ensures q == p.(x := q.x, y := q.y, vy := q.vy, grounded := q.grounded)
  {
    var x0 := if p.x < 0.0 then 0.0 else p.x;
    var x1 := if x0 > StageWidth then StageWidth else x0;
    if p.y > Ground then p.(x := x1, y := Ground, vy := 0.0, grounded := true) else p.(x := x1)
  }

  /** One tick of knockback decay: positive knockback shrinks, and reaches zero below the floor. */
  function Fade(k: real): (k': real)
    ensures k > 0.0 ==> k' == 0.0 || KnockbackFloor <= k' < k
    ensures k > 0.0 ==> (k' == 0.0 <==> KnockbackRetained * k < KnockbackFloor)
    ensures k > 0.0 && k' != 0.0 ==> k' == KnockbackRetained * k
    ensures k <= 0.0 ==> k' == k
  {
    if k > 0.0 then
      var d := k * KnockbackRetained;
      if d < KnockbackFloor then 0.0 else d
    else k
  }

  /** `facing * k`: a knockback of size `k` along `facing`. */
  function Push(facing: Facing, k: real): (v: real)
    ensures v == facing.Sign() as real * k
  {
    if facing.Right? then k else -k
  }

  /** Knockback pushes the fighter along its facing, on top of its own velocity, then decays. */
  function Recoil(p: Player): (q: Player)
    ensures p.knockback > 0.0 ==> q.vx == p.vx + Push(p.facing, p.knockback)
    ensures p.knockback <= 0.0 ==> q == p
    ensures q == p.(vx := q.vx, knockback := Fade(p.knockback))
  {
    if p.knockback > 0.0 then
      p.(vx := p.vx + Push(p.facing, p.knockback), knockback := Fade(p.knockback))
    else p
  }

  /** The movement half of a live fighter's turn. */
  function Advance(p: Player): (q: Player)
    ensures 0.0 <= q.x <= StageWidth && q.y <= Ground
    ensures p.knockback > 0.0 ==> q.knockback == 0.0 || KnockbackFloor <= q.knockback < p.knockback
    ensures p.knockback <= 0.0 ==> q.knockback == p.knockback
    ensures q.knockback == Fade(p.knockback)
    ensures q == p.(x := q.x, y := q.y, vx := q.vx, vy := q.vy, grounded := q.grounded, knockback := q.knockback)
  {
    var i := InputOf(p);
    Recoil(Clamp(Fall(Jump(Steer(p, i), i))))
  }

  /** A grounded fighter holding jump takes off: it leaves the ground with the impulse less one tick of gravity. */
  lemma JumpTakeoff(p: Player)
    requires InputOf(p).jump && p.grounded && p.y <= Ground
    ensures Advance(p).vy == Gravity - JumpPower
    ensures Advance(p).y == p.y + Gravity - JumpPower
    ensures !Advance(p).grounded
  {
  }

  /** Movement ignores the archetype's own `speed`: the global move speed is used. */
  lemma SpeedIsGlobal(p: Player, s: real)
    ensures Advance(p.(speed := s)) == Advance(p).(speed := s)
  {
  }

  /** `n` ticks of movement alone. */
  function AdvanceN(p: Player, n: nat): Player
  {
    if n == 0 then p else Advance(AdvanceN(p, n - 1))
  }

  function Power(b: real, n: nat): real
  {
    if n == 0 then 1.0 else b * Power(b, n - 1)
  }

  /** One coasting tick: friction alone acts on `vx`. */
  lemma Coast(q: Player)
    requires !InputOf(q).left && !InputOf(q).right && q.knockback <= 0.0
    ensures Advance(q).vx == Friction * q.vx
    ensures Advance(q).input == q.input && Advance(q).knockback == q.knockback
  {
    var i := InputOf(q);
    var s := Steer(q, i);
    assert s.vx == Friction * q.vx;
    var c := Clamp(Fall(Jump(s, i)));
    assert c.vx == s.vx && c.knockback == q.knockback;
  }

  /** A horizontal speed `v` after `n` ticks of friction alone. */
  function Coasted(v: real, n: nat): real
  {
    if n == 0 then v else Friction * Coasted(v, n - 1)
  }

  /** Without direction keys or knockback, each tick of movement applies friction and nothing else to `vx`. */
  lemma {:induction false} CoastingTicks(p: Player, n: nat)
    requires !InputOf(p).left && !InputOf(p).right && p.knockback <= 0.0
    ensures AdvanceN(p, n).vx == Coasted(p.vx, n)
    ensures AdvanceN(p, n).input == p.input && AdvanceN(p, n).knockback == p.knockback
  {
    if n > 0 {
      CoastingTicks(p, n - 1);
      Coast(AdvanceN(p, n - 1));
    }
  }

  /** Friction alone is geometric decay that never reaches zero. */
  lemma {:induction false} CoastedIsGeometric(v: real, n: nat)
    ensures Coasted(v, n) == v * Power(Friction, n)
    ensures v != 0.0 ==> Coasted(v, n) != 0.0
  {
    if n > 0 {
      CoastedIsGeometric(v, n - 1);
      Rearrange(Friction, v, Power(Friction, n - 1));
    }
  }

  lemma Rearrange(a: real, b: real, c: real)
    ensures a * (b * c) == b * (a * c)
  {
  }

  /** `n` ticks of knockback decay. */
  function FadeN(k: real, n: nat): real
    decreases n
  {
    if n == 0 then k else FadeN(Fade(k), n - 1)
  }

  lemma {:induction false} FadeFromZero(n: nat)
    ensures FadeN(0.0, n) == 0.0
  {
    if n > 0 {
      FadeFromZero(n - 1);
    }
  }

  /**
   * Knockback dies out in finite time: each tick it either snaps to zero or
   * loses at least 0.01, so knockback `k` is gone after any `n > 100 * k` ticks.
   */
  lemma {:induction false} KnockbackSettles(k: real, n: nat)
    requires 0.0 <= k && 100.0 * k < n as real
    ensures FadeN(k, n) == 0.0
    decreases n
  {
    var k' := Fade(k);
    if k' == 0.0 {
      FadeFromZero(n - 1);
    } else {
      assert k' == k * KnockbackRetained;
      KnockbackSettles(k', n - 1);
    }
  }

  /**
   * A knockback that is zero or negative never decays: a hit on a fighter
   * whose health has fallen far enough leaves it there for good.
   */
  lemma {:induction false} NegativeKnockbackStays(k: real, n: nat)
    requires k <= 0.0
    ensures FadeN(k, n) == k
    decreases n
  {
    if n > 0 {
      NegativeKnockbackStays(Fade(k), n - 1);
    }
  }

  /** One more decay step comes last. */
  lemma {:induction false} FadeNLast(k: real, n: nat)
    ensures FadeN(k, n + 1) == Fade(FadeN(k, n))
    decreases n
  {
    if n > 0 {
      FadeNLast(Fade(k), n - 1);
    }
  }

  /** Over `n` ticks of movement, knockback follows `n` steps of decay. */
  lemma {:induction false} KnockbackTicks(p: Player, n: nat)
    ensures AdvanceN(p, n).knockback == FadeN(p.knockback, n)
  {
    if n > 0 {
      KnockbackTicks(p, n - 1);
      FadeNLast(p.knockback, n - 1);
    }
  }

  // ---------------------------------------------------------------------
  // Combat
  // ---------------------------------------------------------------------

  function Abs(a: real): real
  {
    if a < 0.0 then -a else a
  }

  /** The attack's proximity box around the attacker `p`. */
  predicate InReach(o: Player, p: Player)
  {
    Abs(o.x - p.x) < Reach && Abs(o.y - p.y) < Reach
  }

  /**
   * One hit of `kind` by attacker `p` on victim `o`: the victim loses the
   * attacker's damage, its knockback grows with the health it has left, it
   * is turned to face away from the attacker and pushed that way.
   */
  function Hit(o: Player, p: Player, kind: AttackKind): (h: Player)
    ensures h.health == o.health - p.attacks.Get(kind)
    ensures h.knockback == p.knockbacks.Get(kind) + HealthToKnockback * h.health
    ensures h.facing == (if o.x > p.x then Right else Left)
    ensures h.vx == h.facing.Sign() as real * h.knockback
    ensures h == o.(health := h.health, knockback := h.knockback, facing := h.facing, vx := h.vx)
  {
    var health := o.health - p.attacks.Get(kind);
    var knockback := p.knockbacks.Get(kind) + health * HealthToKnockback;
    var facing := if o.x > p.x then Right else Left;
    o.(health := health, knockback := knockback, facing := facing, vx := Push(facing, knockback))
  }

  /**
   * An attack of `kind` by fighter `id`: every other fighter in reach is hit
   * (dead ones included); everyone else, the attacker too, is untouched.
   */
  function Struck(m: map<string, Player>, id: string, kind: AttackKind): (r: map<string, Player>)
    requires id in m
    ensures r.Keys == m.Keys && r[id] == m[id]
    ensures forall k :: k in m && !InReach(m[k], m[id]) ==> r[k] == m[k]
    ensures forall k :: k in m && k != id && InReach(m[k], m[id]) ==> r[k] == Hit(m[k], m[id], kind)
    ensures forall k :: k in m && k != id && InReach(m[k], m[id]) ==>
      r[k].health == m[k].health - m[id].attacks.Get(kind) && r[k].isDead == m[k].isDead
  {
    map k | k in m :: if k != id && InReach(m[k], m[id]) then Hit(m[k], m[id], kind) else m[k]
  }

  /** One attack branch of the turn, guarded by the attacker's `attacking` lock. */
  function Attempt(m: map<string, Player>, id: string, i: Input, kind: AttackKind): (r: map<string, Player>)
    requires id in m
    ensures r.Keys == m.Keys
    ensures r[id] == m[id].(attacking := m[id].attacking || i.Pressed(kind))
    ensures m[id].attacking || !i.Pressed(kind) ==> r == m
  {
    if i.Pressed(kind) && !m[id].attacking then
      Struck(m[id := m[id].(attacking := true)], id, kind)
    else m
  }

  /** The attack a turn starts: the first pressed of basic, special, ult, and none while locked. */
  function Choose(i: Input, attacking: bool): (c: Option<AttackKind>)
    ensures c == Some(Basic) <==> !attacking && i.basic
    ensures c == Some(Special) <==> !attacking && !i.basic && i.special
    ensures c == Some(Ult) <==> !attacking && !i.basic && !i.special && i.ult
    ensures c == None <==> attacking || !(i.basic || i.special || i.ult)
  {
    if attacking then None
    else if i.basic then Some(Basic)
    else if i.special then Some(Special)
    else if i.ult then Some(Ult)
    else None
  }

  // ---------------------------------------------------------------------
  // The turn and the tick
  // ---------------------------------------------------------------------

  /** The fall-off test; health plays no part in it. */
  function FallCheck(p: Player): (q: Player)
    ensures q.isDead <==> p.isDead || p.y > FallLine
    ensures q == p.(isDead := q.isDead)
  {
    if p.y > FallLine then p.(isDead := true) else p
  }

  /** One fighter's turn of the game loop: move, try the three attacks in order, check for a fall. */
  function Turn(m: map<string, Player>, id: string): (r: map<string, Player>)
    ensures r.Keys == m.Keys
  {
    if id !in m || m[id].isDead then m
    else
      var i := InputOf(m[id]);
      var moved := m[id := Advance(m[id])];
      var fought := Attempt(Attempt(Attempt(moved, id, i, Basic), id, i, Special), id, i, Ult);
      fought[id := FallCheck(fought[id])]
  }

  /** One tick: the turns of `ids`, in that order. */
  function Tick(m: map<string, Player>, ids: seq<string>): (r: map<string, Player>)
    ensures r.Keys == m.Keys
  {
    if ids == [] then m else Turn(Tick(m, ids[..|ids| - 1]), ids[|ids| - 1])
  }

  /**
   * The three attack branches amount to one: a turn starts at most the
   * attack `Choose` picks, and a locked fighter starts none.
   */
  lemma OneAttackPerTurn(m: map<string, Player>, id: string)
    requires id in m && !m[id].isDead
    ensures
      var i := InputOf(m[id]);
      var moved := m[id := Advance(m[id])];
      var c := Choose(i, m[id].attacking);
      var fought := if c.None? then moved else Struck(moved[id := moved[id].(attacking := true)], id, c.value);
      Turn(m, id) == fought[id := FallCheck(fought[id])]
  {
  }

  /** While a fighter's lock is held, its turn changes no other fighter, and the lock stays held. */
  lemma LockedTurnSparesOthers(m: map<string, Player>, id: string)
    requires id in m && m[id].attacking
    ensures forall k :: k in m && k != id ==> Turn(m, id)[k] == m[k]
    ensures Turn(m, id)[id].attacking
  {
  }

  /** A turn kills no one: the mover has just been clamped above the ground, far from the fall line. */
  lemma TurnKillsNoOne(m: map<string, Player>, id: string)
    ensures forall k :: k in m && !m[k].isDead ==> !Turn(m, id)[k].isDead
  {
    if id in m && !m[id].isDead {
      var i := InputOf(m[id]);
      var moved := m[id := Advance(m[id])];
      var fought := Attempt(Attempt(Attempt(moved, id, i, Basic), id, i, Special), id, i, Ult);
      assert fought[id].y == Advance(m[id]).y <= Ground;
      forall k | k in m && !m[k].isDead
        ensures !fought[k].isDead
      {
        StruckSparesLife(moved, id, i);
      }
    }
  }

  /** The attack branches never change anyone's `isDead`. */
  lemma StruckSparesLife(m: map<string, Player>, id: string, i: Input)
    requires id in m
    ensures var fought := Attempt(Attempt(Attempt(m, id, i, Basic), id, i, Special), id, i, Ult);
      forall k :: k in m ==> fought[k].isDead == m[k].isDead
  {
  }

  /** No tick kills anyone: the fall-off branch can never fire. */
  lemma {:induction false} TickKillsNoOne(m: map<string, Player>, ids: seq<string>)
    ensures forall k :: k in m && !m[k].isDead ==> !Tick(m, ids)[k].isDead
  {
    if ids != [] {
      TickKillsNoOne(m, ids[..|ids| - 1]);
      TurnKillsNoOne(Tick(m, ids[..|ids| - 1]), ids[|ids| - 1]);
    }
  }

  lemma StruckKeepsSane(m: map<string, Player>, id: string, kind: AttackKind)
    requires id in m && AllSane(m)
    ensures AllSane(Struck(m, id, kind))
  {
    var r := Struck(m, id, kind);
    forall k | k in r
      ensures Sane(r[k])
    {
      if k != id && InReach(m[k], m[id]) {
        assert r[k] == Hit(m[k], m[id], kind);
      }
    }
  }

  lemma AttemptKeepsSane(m: map<string, Player>, id: string, i: Input, kind: AttackKind)
    requires id in m && AllSane(m)
    ensures AllSane(Attempt(m, id, i, kind))
  {
    if i.Pressed(kind) && !m[id].attacking {
      StruckKeepsSane(m[id := m[id].(attacking := true)], id, kind);
    }
  }

  /** A turn keeps every fighter on stage, on or above the ground, and alive. */
  lemma TurnKeepsSane(m: map<string, Player>, id: string)
    requires AllSane(m)
    ensures AllSane(Turn(m, id))
  {
    if id in m && !m[id].isDead {
      var i := InputOf(m[id]);
      var moved := m[id := Advance(m[id])];
      assert AllSane(moved);
      AttemptKeepsSane(moved, id, i, Basic);
      var f1 := Attempt(moved, id, i, Basic);
      AttemptKeepsSane(f1, id, i, Special);
      var f2 := Attempt(f1, id, i, Special);
      AttemptKeepsSane(f2, id, i, Ult);
    }
  }

  /** A tick over one more id is one more turn. */
  lemma TickStep(m: map<string, Player>, ids: seq<string>, i: nat)
    requires i < |ids|
    ensures Tick(m, ids[..i + 1]) == Turn(Tick(m, ids[..i]), ids[i])
  {
    assert ids[..i + 1][..i] == ids[..i];
  }

  /** The tick keeps every fighter on stage, on or above the ground, and alive. */
  lemma {:induction false} TickKeepsSane(m: map<string, Player>, ids: seq<string>)
    requires AllSane(m)
    ensures AllSane(Tick(m, ids))
  {
    if ids != [] {
      TickKeepsSane(m, ids[..|ids| - 1]);
      TurnKeepsSane(Tick(m, ids[..|ids| - 1]), ids[|ids| - 1]);
    }
  }

  /**
   * A vexa basic attack on a full-health vexa 30 units to the right: health
   * drops from 100 to 88, knockback becomes 5 + 88 * 0.3 = 31.4, and the
   * victim is turned and pushed to the right. At 60 units nothing happens.
   */
  lemma BasicHitScenario()
    ensures
      var a := Spawn("vexa", 0.0).(x := 100.0, y := Ground);
      var b := Spawn("vexa", 0.0).(x := 130.0, y := Ground);
      var r := Struck(map["a" := a, "b" := b], "a", Basic);
      && r["b"].health == 88.0 && r["b"].knockback == 31.4
      && r["b"].facing == Right && r["b"].vx == 31.4
      && r["a"] == a
    ensures
      var a := Spawn("vexa", 0.0).(x := 100.0, y := Ground);
      var b := Spawn("vexa", 0.0).(x := 160.0, y := Ground);
      Struck(map["a" := a, "b" := b], "a", Basic) == map["a" := a, "b" := b]
  {
  }

  /**
   * A glyph ult on a vexa left with 20 health: the victim drops to -60
   * health, and its knockback 12 + 0.3 * (-60) = -6 pulls it toward the
   * attacker; the movement tick then keeps that knockback as it is.
   */
  lemma LowHealthHitScenario()
    ensures
      var a := Spawn("glyph", 0.0).(x := 100.0, y := Ground);
      var b := Spawn("vexa", 0.0).(x := 130.0, y := Ground, health := 20.0);
      var r := Struck(map["a" := a, "b" := b], "a", Ult);
      && r["b"].health == -60.0 && r["b"].knockback == -6.0
      && r["b"].facing == Right && r["b"].vx == -6.0
      && Advance(r["b"]).knockback == -6.0
  {
  }

  /** Direction keys, the jump, gravity and integration, updating the record field by field. */
  method Run(fighter: Player, input: Input) returns (p: Player)
    ensures p == Fall(Jump(Steer(fighter, input), input))
  {
    p := fighter;
    if input.left {
      p := p.(vx := -MoveSpeed);
    } else if input.right {
      p := p.(vx := MoveSpeed);
    } else {
      p := p.(vx := p.vx * Friction);
    }

    if input.jump && p.grounded {
      p := p.(vy := -JumpPower, grounded := false);
    }

    p := p.(vy := p.vy + Gravity);
    p := p.(x := p.x + p.vx);
    p := p.(y := p.y + p.vy);
  }

  /** The stage walls and the ground. */
  method KeepOnStage(fighter: Player) returns (p: Player)
    ensures p == Clamp(fighter)
  {
    p := fighter;
    if p.x < 0.0 {
      p := p.(x := 0.0);
    }
    if p.x > StageWidth {
      p := p.(x := StageWidth);
    }
    if p.y > Ground {
      p := p.(y := Ground, vy := 0.0, grounded := true);
    }
  }

  /** Knockback pushes the fighter, then decays. */
  method Knock(fighter: Player) returns (p: Player)
    ensures p == Recoil(fighter)
  {
    p := fighter;
    if p.knockback > 0.0 {
      p := p.(vx := p.vx + Push(p.facing, p.knockback));
      p := p.(knockback := p.knockback * KnockbackRetained);
      if p.knockback < KnockbackFloor {
        p := p.(knockback := 0.0);
      }
    }
  }

  /** The movement block of a live fighter's turn. */
  method Move(fighter: Player) returns (p: Player)
    ensures p == Advance(fighter)
  {
    p := Run(fighter, InputOf(fighter));
    p := KeepOnStage(p);
    p := Knock(p);
  }

  /** The fall-off test, on the fighter's record. */
  method FallOff(fighter: Player) returns (p: Player)
    ensures p == FallCheck(fighter)
  {
    p := fighter;
    if p.y > FallLine {
      p := p.(isDead := true);
    }
  }

  /** The damage a hit deals to victim `o`, written field by field. */
  method Land(o: Player, p: Player, kind: AttackKind) returns (h: Player)
    ensures h == Hit(o, p, kind)
  {
    h := o;
    h := h.(health := h.health - p.attacks.Get(kind));
    h := h.(knockback := p.knockbacks.Get(kind) + h.health * HealthToKnockback);
    h := h.(facing := if h.x > p.x then Right else Left);
    h := h.(vx := Push(h.facing, h.knockback));
  }

  /** The victims among `ks` hit by attacker `p` (registered as `id`), everyone else as in `m`. */
  ghost function Swept(m: map<string, Player>, p: Player, id: string, kind: AttackKind, ks: seq<string>): map<string, Player>
  {
    map k | k in m :: if k in ks && k != id && InReach(m[k], p) then Hit(m[k], p, kind) else m[k]
  }

  /** Visiting the next id `ks[j]` changes at most that fighter. */
  lemma SweepOne(m: map<string, Player>, p: Player, id: string, kind: AttackKind, ks: seq<string>, j: nat)
    requires j < |ks| && ks[j] in m && ks[j] !in ks[..j]
    ensures Swept(m, p, id, kind, ks[..j])[ks[j]] == m[ks[j]]
    ensures Swept(m, p, id, kind, ks[..j + 1]) ==
      if ks[j] != id && InReach(m[ks[j]], p) then Swept(m, p, id, kind, ks[..j])[ks[j] := Hit(m[ks[j]], p, kind)]
      else Swept(m, p, id, kind, ks[..j])
  {
    assert ks[..j + 1] == ks[..j] + [ks[j]];
  }

  /** Once every key has been visited, the sweep is the attack. */
  lemma SweptAll(m: map<string, Player>, id: string, kind: AttackKind, ks: seq<string>)
    requires id in m && forall k :: k in m ==> k in ks
    ensures Swept(m, m[id], id, kind, ks) == Struck(m, id, kind)
  {
  }

  // ---------------------------------------------------------------------
  // The registry
  // ---------------------------------------------------------------------

  predicate Distinct(s: seq<string>)
  {
    forall a, b :: 0 <= a < b < |s| ==> s[a] != s[b]
  }

  /** `s` with `id` taken out, the others in their order. */
  function Without(s: seq<string>, id: string): (r: seq<string>)
    ensures forall k :: k in r <==> k in s && k != id
    ensures Distinct(s) ==> Distinct(r)
    ensures id !in s ==> r == s
  {
    if s == [] then []
    else if s[0] == id then Without(s[1..], id)
    else
      var rest := Without(s[1..], id);
      assert forall b :: 0 <= b < |s[1..]| ==> s[1..][b] == s[b + 1];
      assert Distinct(s) ==> Distinct(s[1..]) && s[0] !in s[1..];
      assert forall a :: 0 < a <= |rest| ==> ([s[0]] + rest)[a] == rest[a - 1];
      [s[0]] + rest
  }

  lemma Associative<T>(a: seq<T>, b: seq<T>, c: seq<T>)
    ensures a + (b + c) == (a + b) + c
  {
  }

  lemma DistinctTail(s: seq<string>)
    requires Distinct(s) && s != []
    ensures Distinct(s[1..]) && s[0] !in s[1..]
  {
    assert forall b :: 0 <= b < |s[1..]| ==> s[1..][b] == s[b + 1];
  }

  /** Taking a registered id out of a duplicate-free order splices it out at its position, the others keeping their order. */
  lemma {:induction false} WithoutSplices(s: seq<string>, id: string)
    requires Distinct(s) && id in s
    ensures exists j :: 0 <= j < |s| && s[j] == id && Without(s, id) == s[..j] + s[j + 1..]
  {
    var t := s[1..];
    DistinctTail(s);
    if s[0] == id {
      assert Without(s, id) == Without(t, id) == t;
      assert s[..0] + s[1..] == t;
    } else {
      assert id in t;
      WithoutSplices(t, id);
      var j :| 0 <= j < |t| && t[j] == id && Without(t, id) == t[..j] + t[j + 1..];
      assert s[..j + 1] == [s[0]] + t[..j];
      assert s[j + 2..] == t[j + 1..];
      calc {
        Without(s, id);
        [s[0]] + Without(t, id);
        [s[0]] + (t[..j] + t[j + 1..]);
        { Associative([s[0]], t[..j], t[j + 1..]); }
        ([s[0]] + t[..j]) + t[j + 1..];
        s[..j + 1] + s[j + 2..];
      }
      assert s[j + 1] == id;
    }
  }

  /**
   * The fighter registry, `players`. A JavaScript object visits its string
   * keys in insertion order, so `order` keeps the keys in that order.
   */
  class Game {
    var players: map<string, Player>
    var order: seq<string>

    /** `order` lists exactly the registered ids, each once. */
    ghost predicate Indexed()
      reads this
    {
      (forall id :: id in players <==> id in order) && Distinct(order)
    }

    /** The registry's invariant: indexed, and every fighter sane (in particular, alive). */
    ghost predicate Valid()
      reads this
    {
      Indexed() && AllSane(players)
    }

    constructor ()
      ensures Valid()
      ensures players == map[] && order == []
    {
      players := map[];
      order := [];
    }

    /** A connection: a fresh fighter of a random archetype at a random spawn point under `id`. */
    method Connect(id: string, pick: real, r: real)
      requires Valid()
      requires 0.0 <= pick < 1.0 && 0.0 <= r < 1.0
      modifies this
      ensures Valid()
      ensures players == old(players)[id := Spawn(PickType(pick), r)]
      ensures order == if id in old(players) then old(order) else old(order) + [id]
    {
      var charType := PickType(pick);
      var fighter := Spawn(charType, r);
      if id !in players {
        order := order + [id];
      }
      players := players[id := fighter];
    }

    /** An input message: overwrites the sender's stored input, if the sender is registered. */
    method PlayerInput(id: string, input: Option<Input>)
      requires Valid()
      modifies this
      ensures Valid()
      ensures id in old(players) ==> players == old(players)[id := old(players)[id].(input := input)]
      ensures id !in old(players) ==> players == old(players)
      ensures order == old(order)
    {
      if id !in players {
        return;
      }
      players := players[id := players[id].(input := input)];
    }

    /** A disconnection: exactly that key leaves the registry. */
    method Disconnect(id: string)
      requires Valid()
      modifies this
      ensures Valid()
      ensures players == old(players) - {id}
      ensures order == Without(old(order), id)
    {
      players := players - {id};
      order := Without(order, id);
    }

    /** The attack cooldown expiring: releases the lock, and nothing else. */
    method CooldownExpired(id: string)
      requires Valid()
      modifies this
      ensures Valid()
      ensures id in old(players) ==> players == old(players)[id := old(players)[id].(attacking := false)]
      ensures id !in old(players) ==> players == old(players)
      ensures order == old(order)
    {
      if id in players {
        players := players[id := players[id].(attacking := false)];
      }
    }

    /** The respawn timer firing: a new spawn point, spawn height, zero health, alive. */
    method Respawn(id: string, r: real)
      requires Valid()
      requires 0.0 <= r < 1.0
      modifies this
      ensures Valid()
      ensures id in old(players) ==> players == old(players)[id := old(players)[id].(x := SpawnX(r), y := SpawnHeight, health := 0.0, isDead := false)]
      ensures id !in old(players) ==> players == old(players)
      ensures order == old(order)
    {
      if id in players {
        var p := players[id];
        p := p.(x := SpawnX(r));
        p := p.(y := SpawnHeight);
        p := p.(health := 0.0);
        p := p.(isDead := false);
        players := players[id := p];
      }
    }

    /** The hit loop of one attack of `kind` by fighter `id`, over the ids as they stand when it starts. */
    method Strike(id: string, kind: AttackKind)
      requires Indexed() && id in players
      modifies this
      ensures players == Struck(old(players), id, kind)
      ensures order == old(order)
    {
      var p := players[id];
      var ids := order;
      ghost var m := players;
      var j := 0;
      while j < |ids|
        invariant 0 <= j <= |ids|
        invariant order == old(order)
        invariant players == Swept(m, p, id, kind, ids[..j])
      {
        var otherId := ids[j];
        assert otherId !in ids[..j];
        SweepOne(m, p, id, kind, ids, j);
        ghost var next := Swept(m, p, id, kind, ids[..j + 1]);
        if otherId != id {
          var o := players[otherId];
          if InReach(o, p) {
            o := Land(o, p, kind);
            players := players[otherId := o];
          }
        }
        assert players == next;
        j := j + 1;
      }
      assert ids[..j] == ids;
      SweptAll(m, id, kind, ids);
    }

    /** One attack branch: taken when its key is pressed and the lock is free; it sets the lock, then strikes. */
    method TryAttack(id: string, input: Input, kind: AttackKind)
      requires Indexed() && id in players
      modifies this
      ensures players == Attempt(old(players), id, input, kind)
      ensures order == old(order)
    {
      var p := players[id];
      if input.Pressed(kind) && !p.attacking {
        p := p.(attacking := true);
        players := players[id := p];
        Strike(id, kind);
      }
    }

    /** One fighter's turn: move, then the three attack branches under the lock, then the fall-off test. */
    method Step(id: string)
      requires Indexed() && id in players
      modifies this
      ensures players == Turn(old(players), id)
      ensures order == old(order)
    {
      var p := players[id];
      if p.isDead {
        return;
      }
      ghost var m := players;
      var input := InputOf(p);
      p := Move(p);
      players := players[id := p];
      ghost var moved := players;

      TryAttack(id, input, Basic);
      TryAttack(id, input, Special);
      TryAttack(id, input, Ult);
      ghost var fought := players;
      assert fought == Attempt(Attempt(Attempt(moved, id, input, Basic), id, input, Special), id, input, Ult);

      p := FallOff(players[id]);
      players := players[id := p];
    }

    /** `gameLoop`: every registered fighter's turn, in insertion order. */
    method GameLoop()
      requires Valid()
      modifies this
      ensures Valid()
      ensures players == Tick(old(players), old(order))
      ensures order == old(order)
    {
      var ids := order;
      ghost var m := players;
      var i := 0;
      while i < |ids|
        invariant 0 <= i <= |ids|
        invariant order == ids && Valid()
        invariant players == Tick(m, ids[..i])
      {
        var id := ids[i];
        TickStep(m, ids, i);
        TurnKeepsSane(players, id);
        Step(id);
        i := i + 1;
      }
      assert ids[..i] == ids;
    }
  }
}
