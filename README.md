# Fighting-game server: registry and tick

This project models the authoritative simulation of a small multiplayer
platform fighter and proves properties of it. The server keeps one registry
of fighters, keyed by connection id. Clients connect, send their key state
and disconnect. Sixty times a second, `gameLoop` moves every live fighter,
resolves its attacks and checks whether it fell off the stage. The
archetype table of `public/characters/Character.js` supplies each fighter's
health, attack damage and knockback.

Files:

- `wrappers.dfy`: the `Option` type.
- `characters.dfy` (module `Characters`): the archetype table. It is pure,
  so it is written as functions.
- `server.dfy` (module `Server`): the rest, in two layers.
  - Each rule of the tick is a function on a `Player` value: `Steer`,
    `Jump`, `Fall`, `Clamp`, `Recoil`, `Hit`, `Struck`, `Attempt` and
    `FallCheck`. They compose into `Advance` (the movement of one fighter),
    `Turn` (one fighter's whole turn) and `Tick` (all turns, in order).
  - The class `Game` holds the registry as the server does. `players` is a
    map from id to fighter record. `order` lists the ids in insertion
    order, because a JavaScript `for…in` loop visits string keys in that
    order and the outcome of a tick depends on it. The handlers and
    `gameLoop` are methods that update this state step by step. Each
    method is proved equal to the functions above. The value methods `Run`,
    `KeepOnStage`, `Knock`, `Move`, `FallOff` and `Land` write the same
    rules one field update at a time, as the JavaScript does. They are not
    separate results: each is proved equal to its function. The class invariant
    `Valid` says three things: `order` lists each key exactly once, every
    fighter is on the stage and on or above the ground, and no fighter is
    dead.

Randomness is a parameter. `Math.random()` becomes `pick` (the archetype
draw) and `r` (the spawn draw), both in [0, 1). The two `setTimeout` bodies
become the events `Game.CooldownExpired` and `Game.Respawn`. Either one does
nothing when its id is no longer registered.

Main results:

- Every fighter is always on stage, and on or above the ground line
  `y <= 328`. As a consequence, the fall-off test `y > 460` can never fire,
  and no fighter ever dies (`TickKillsNoOne`, `TickKeepsSane`, and
  `Valid` preserved by the constructor, every handler, both events and
  `GameLoop`).
- The three attack branches share one lock. They amount to at most one
  attack per turn, chosen with priority basic, then special, then ult
  (`OneAttackPerTurn`, `Choose`). A fighter whose lock is held changes no
  one else (`LockedTurnSparesOthers`).
- The hit formula is exact, for one victim and across the registry
  (`Hit`, `Struck`, `BasicHitScenario`).
- Over movement ticks, knockback follows its decay step by step
  (`KnockbackTicks`). A non-negative knockback k dies out within `100 * k`
  ticks (`KnockbackSettles`). A zero or negative knockback never changes
  (`NegativeKnockbackStays`).
- Friction alone decays speed geometrically and never reaches zero
  (`CoastingTicks`, `CoastedIsGeometric`).

Behaviours of the code that the model keeps:

- The ground clamp fires only when `y` is strictly below the ground line
  (`y > 328`).
- Walking uses the global move speed 5, not the archetype's `speed`
  (`SpeedIsGlobal`).
- Turns run in insertion order, not in any sorted order.
- Dead fighters are not excluded as targets of an attack.
- A respawn sets health to 0 and places `x` in [50, 590).
- Health is never clamped, and no fighter dies, so hits keep lowering
  health. Once a victim's health after a hit is below the attack's
  knockback divided by -0.3, the hit gives it a negative knockback. That
  knockback pulls the victim toward the attacker, and it never decays
  until the next hit (`LowHealthHitScenario`, `NegativeKnockbackStays`).

## Model

| member | source | states |
|---|---|---|
| Characters.NewCharacter | public/characters/Character.js:1-35 | the type name is always recorded; stats are present exactly for "vexa" and "glyph"; "vexa" gets health 100, damage 10, speed 5, attacks 12/25/70 and knockbacks 5/10/20, "glyph" gets health 80, damage 15, speed 4, attacks 4/45/80 and knockbacks 2/6/12; a known archetype has positive health, and its attacks and knockbacks strictly grow from basic to special to ult |
| Characters.ArchetypeContrast | public/characters/Character.js:5-32 | vexa has more health and speed than glyph; glyph has more base damage and a stronger special and ult |
| Server.SpawnX | server.js:22-24 | the spawn x lies in [50, 590) for every draw in [0, 1) |
| Server.PickType | server.js:29-30 | the drawn archetype is always a known one, and it is glyph exactly when the draw is below one half |
| Server.Spawn | server.js:32-50 | a new fighter has full health equal to its archetype's health, that archetype's attacks, knockbacks and speed, y = 300, zero velocity and knockback, faces right, is grounded, alive, unlocked, and has no input yet |
| Server.InputOf | server.js:84 | a sent input is used as sent; a fighter that has sent none reads as pressing nothing |
| Server.Steer | server.js:86-89 | left gives vx = -5; otherwise right gives vx = 5; otherwise vx is multiplied by the friction 0.8; nothing else changes |
| Server.Fall | server.js:97-102 | gravity adds 0.8 to vy, then x moves by vx and y by the new vy; nothing else changes |
| Server.Jump | server.js:91-95 | only a grounded fighter holding jump takes off, with vy = -15, no longer grounded; otherwise nothing changes |
| Server.Clamp | server.js:104-111 | afterwards 0 <= x <= 640 and y <= 328; x inside the stage is kept, x below 0 becomes 0 and x beyond 640 becomes 640; below the ground the fighter is put on it with vy = 0 and grounded; above it y, vy and grounded are kept |
| Server.Fade | server.js:116-117 | positive knockback k becomes 0.9 k, or 0 exactly when 0.9 k is below 0.1, so it lands in [0.1, k) or at 0 and strictly decreases; non-positive knockback is kept |
| Server.Push | server.js:115 | a knockback k along a facing is the facing's sign times k |
| Server.Recoil | server.js:113-118 | positive knockback adds facing * knockback to vx and decays; otherwise the fighter is unchanged |
| Server.Advance | server.js:84-118 | after the movement block the fighter is inside the stage and not below the ground, and its knockback is exactly Fade of the old one; only position, velocity, grounded and knockback change |
| Server.JumpTakeoff | server.js:92-102 | a grounded fighter holding jump ends the tick airborne, with vy = 0.8 - 15 and y raised by that much |
| Server.SpeedIsGlobal | server.js:73-89 | the archetype's speed has no influence on movement |
| Server.Coast | server.js:86-118 | a tick without direction keys or knockback multiplies vx by the friction and keeps input and knockback |
| Server.CoastingTicks | server.js:86-118 | over n such ticks, vx follows the friction recurrence |
| Server.CoastedIsGeometric | server.js:86-89 | friction alone gives vx * 0.8^n, which never reaches zero from a nonzero speed |
| Server.FadeFromZero | server.js:114 | helper for KnockbackSettles: zero knockback stays zero for any number of ticks |
| Server.KnockbackSettles | server.js:114-118 | knockback k >= 0 is exactly zero after any n > 100 * k decay steps |
| Server.NegativeKnockbackStays | server.js:114-118 | a zero or negative knockback is unchanged by any number of decay steps |
| Server.KnockbackTicks | server.js:84-118 | after n movement ticks, a fighter's knockback is n decay steps of the old one |
| Server.Hit | server.js:127-131 | the victim loses the attack's damage; its knockback is the attack's knockback plus 0.3 times its new health; it faces away from the attacker; its vx is its facing times its knockback; nothing else changes |
| Server.Struck | server.js:124-133 | keys are kept; the attacker and every fighter out of reach are unchanged; every other fighter in reach, dead or alive, becomes exactly its Hit by the attacker, so it loses the attack's damage and keeps isDead |
| Server.Attempt | server.js:121-177 | an attack branch sets the lock when its key is pressed; when the lock was held or the key not pressed, nothing changes |
| Server.Choose | server.js:120-177 | a turn starts basic if pressed, else special, else ult, and nothing while locked or with no attack key |
| Server.FallCheck | server.js:179-181 | a fighter is dead afterwards exactly when it was dead or is below y = 460 |
| Server.Turn | server.js:80-190 | a turn keeps the registry's keys |
| Server.Tick | server.js:78-190 | a tick keeps the registry's keys |
| Server.OneAttackPerTurn | server.js:120-177 | the three lock-guarded branches of a turn start exactly the one attack `Choose` picks, or none |
| Server.LockedTurnSparesOthers | server.js:120-177 | while a fighter's lock is held, its turn changes no other fighter and the lock stays held |
| Server.StruckSparesLife | server.js:120-177 | the attack branches never change anyone's isDead |
| Server.TurnKillsNoOne | server.js:104-181 | no live fighter dies during a turn: the mover was just clamped to y <= 328, far above 460 |
| Server.TickKillsNoOne | server.js:80-190 | no live fighter dies during a tick |
| Server.StruckKeepsSane | server.js:124-133 | an attack keeps every fighter on stage, not below the ground, and alive |
| Server.AttemptKeepsSane | server.js:121-138 | an attack branch keeps every fighter on stage, not below the ground, and alive |
| Server.TurnKeepsSane | server.js:80-190 | a turn keeps every fighter on stage, not below the ground, and alive |
| Server.TickKeepsSane | server.js:78-190 | a tick keeps every fighter on stage, not below the ground, and alive |
| Server.BasicHitScenario | server.js:127-131 | a vexa basic hit on a full-health vexa 30 units to the right leaves it at 88 health with knockback and vx 31.4, facing right; at 60 units nothing changes |
| Server.LowHealthHitScenario | server.js:114-131 | a glyph ult on a vexa with 20 health leaves it at -60 health with knockback and vx -6, facing right, so it is pulled toward the attacker; the next movement tick keeps knockback -6 |
| Server.Run | server.js:86-102 | the field-by-field steering, jump, gravity and integration equal Steer, Jump and Fall |
| Server.KeepOnStage | server.js:104-111 | the field-by-field clamps equal Clamp |
| Server.Knock | server.js:113-118 | the field-by-field knockback step equals Recoil |
| Server.Move | server.js:84-118 | the movement block equals Advance |
| Server.FallOff | server.js:179-181 | the fall-off test equals FallCheck |
| Server.Land | server.js:128-131 | the field-by-field hit equals Hit |
| Server.SweepOne | server.js:124-133 | visiting one more id in the hit loop changes at most that fighter, and exactly as Struck would |
| Server.SweptAll | server.js:124-133 | once the hit loop has visited every key, the result is Struck |
| Server.Without | server.js:67 | deleting a key from the insertion order removes exactly that id and keeps the others distinct; an absent id leaves the order as it is |
| Server.WithoutSplices | server.js:67 | in a duplicate-free order, deleting a present id cuts it out at its position, and the ids before and after it keep their order |
| Server.Game.constructor | server.js:15 | the registry starts empty and valid |
| Server.Game.Connect | server.js:26-50 | exactly that key gets a fresh spawn of the drawn archetype; every other fighter is unchanged; a new id goes to the end of the order; the invariant is kept |
| Server.Game.PlayerInput | server.js:59-63 | for a registered id only that fighter's input is overwritten; for an absent id nothing changes |
| Server.Game.Disconnect | server.js:65-67 | exactly that key leaves the registry and the order; the invariant is kept |
| Server.Game.CooldownExpired | server.js:135-176 | only the fighter's lock is released, and nothing happens for an absent id |
| Server.Game.Respawn | server.js:182-188 | the fighter gets x in [50, 590), y = 300, health 0 and is alive, and nothing else changes; nothing happens for an absent id |
| Server.Game.Strike | server.js:124-133 | the in-place hit loop over the registry leaves the registry equal to Struck |
| Server.Game.TryAttack | server.js:121-138 | one attack branch, updated in place, equals Attempt |
| Server.Game.Step | server.js:81-190 | one fighter's turn, updated in place, equals Turn |
| Server.Game.GameLoop | server.js:78-190 | the in-place loop over the registry in insertion order equals Tick, and keeps the invariant, so no fighter ever dies |

## Left out

- Networking and logging are not modelled: Express, http, socket.io, `console.log`, and the `emit` and `broadcast` calls of the `gameState`, `currentPlayers`, `newPlayer` and `playerDisconnected` messages. The registry itself is the state those messages carry.
- Wall-clock timing is not modelled: the 60 Hz `setInterval` and the 300 ms and 3 s `setTimeout` delays. A tick is a call to `Game.GameLoop`, and a timer firing is a call to `Game.CooldownExpired` or `Game.Respawn`. Any interleaving of these calls can be expressed, but the delays are not.
- Game.CooldownExpired, Game.Respawn: the JavaScript closures mutate the captured record even after it has left the registry. Here an absent id is a no-op, which has the same effect on the registry. The model assumes an id is not reused after a disconnect.
- The browser client (`public/game.js`) is not part of this model: it handles rendering, input capture and the socket client.
- Numbers are reals. IEEE-754 rounding is not modelled.
- Server.Game.PlayerInput: a client's input is an arbitrary JSON value. Here it is either absent (`null` or missing) or six booleans. Each field is taken as the truthiness of the corresponding JavaScript field.
- `Math.random()` is not modelled. Its results are the parameters `pick` and `r`, each required to be in [0, 1).
- The model follows JavaScript `for…in` order for connection ids. Socket ids are never canonical array indices, so they are visited in insertion order.
- A Character built with an unknown name carries no stats. The server only ever asks for "vexa" or "glyph", so `Spawn` requires a known name.
