/**
 * The unit entity: its life cycle (add, remove, kill, killed, destroy), the per-team,
 * per-kind live counts, re-synchronisation with its kind, controller ownership, the
 * authority-gated steps of a tick, and the sensor queries logic processors make.
 *
 * Remote invocations, bus events and calls into collaborators whose code is elsewhere
 * (the kind's hooks, abilities, weapons, the controller's decision step) are appended to
 * logs in `GameState` instead of being executed. Floating-point values are reals.
 */
module Units {
  import opened Wrappers
  import opened Content

  /** World units per tile. */
  const TileSize: real := 8.0
  /** Codes of the `controlled` sensor. */
  const CtrlProcessor: int := 1
  const CtrlPlayer: int := 2
  const CtrlFormation: int := 3
  /** Time between two ammo resupply requests. */
  const ResupplyInterval: real := 10.0
  /** Explosiveness above which a death caused by a local player counts as a suicide bomb. */
  const SuicideBombThreshold: real := 7.0
  /** Drag of a dead, falling unit. */
  const DeadDrag: real := 0.01
  /** Elevation below which a unit is on the ground, and from which it is flying. */
  const GroundedBelow: real := 0.001
  const FlyingFrom: real := 0.09

  type TeamId = nat
  type UnitId = nat
  /** Tile coordinates. */
  type Tile = (int, int)

  datatype Weapon = Weapon(shootOnDeath: bool, bulletKillsShooter: bool)
  datatype WeaponMount = WeaponMount(weapon: Weapon, reload: real, shoot: bool)
  datatype Ability = Ability(template: nat)

  /** The decision source driving a unit. */
  datatype ControllerKind =
    | PlayerControl(name: string)
    | LogicControl(processor: Option<nat>)    // driven by a logic processor (building id)
    | FormationControl(leader: Option<UnitId>) // following a formation leader
    | OtherAI(strategy: nat)                   // any other AI controller

  /** A controller, the unit it is attached to, and whether it is still usable. */
  datatype UnitController = UnitController(kind: ControllerKind, unit: Option<UnitId>, valid: bool)

  /** The immutable parameters shared by all units of one kind. */
  datatype UnitType = UnitType(
    id: nat,
    health: real, drag: real, armor: real, hitSize: real,
    hovering: bool, flying: bool, canBoost: bool, canDrown: bool,
    ammoCapacity: int, itemCapacity: int, maxRange: real, fallSpeed: real,
    weapons: seq<Weapon>, abilities: seq<Ability>,
    defaultController: ControllerKind)

  datatype Payload = UnitPayload(unitKind: UnitType) | BuildPayload(block: nat)

  datatype ItemStack = ItemStack(item: Item, amount: int)

  /** Session rules and the execution context. `client` is a replica without authority. */
  datatype Rules = Rules(client: bool, editor: bool, unitAmmo: bool)

  datatype RemoteCall = UnitCapDeath(unit: UnitId) | UnitDeath(unit: UnitId) | UnitDestroy(unit: UnitId) | UnitDespawn(unit: UnitId)

  datatype GameEvent = UnitDestroyEvent(unit: UnitId) | SuicideBomb

  /** Calls into collaborators: kind, abilities, weapons, controller, damage. */
  datatype Hook =
    | TypeUpdate(unit: UnitId)
    | Resupply(unit: UnitId)
    | AbilityUpdate(unit: UnitId, index: nat)
    | ControllerStep(unit: UnitId)
    | ControllerRemoved(unit: UnitId)
    | DeathExplosion(unit: UnitId, damaging: bool)
    | DeathShot(unit: UnitId, mount: nat)
    | CrashDamage(unit: UnitId)
    | AbilityDeath(unit: UnitId, index: nat)

  /** The logic sensors. Those from Type on are object sensors; `Other` stands for every other sensor. */
  datatype Sensor =
    | TotalItems | ItemCapacity | Rotation | Health | MaxHealth | Ammo | AmmoCapacity
    | X | Y | Dead | Team | Shooting | Boosting | Range | ShootX | ShootY
    | Mining | MineX | MineY | Flag | Controlled | Commanded | PayloadCount | Size
    | Type | Name | FirstItem | Controller | PayloadType
    | Other(code: nat)

  predicate IsObjectSensor(s: Sensor)
  {
    s.Type? || s.Name? || s.FirstItem? || s.Controller? || s.PayloadType?
  }

  predicate IsNumericSensor(s: Sensor)
  {
    !IsObjectSensor(s) && !s.Other?
  }

  /** A sensed number; NaN is the answer to a sensor a unit does not have. */
  datatype Sensed = Num(value: real) | NaN

  /** A sensed object; Null is Java's null and NoSensed the marker for an unknown object sensor. */
  datatype SensedObject =
    | Null | NoSensed
    | KindObject(kind: UnitType) | NameObject(name: string) | ItemObject(item: Item)
    | BuildingObject(building: nat) | UnitObject(unit: UnitId) | BlockObject(block: nat)

  /** A count table read at one (team, kind id) pair; a pair never counted reads 0. */
  function CountIn(counts: map<(TeamId, nat), int>, team: TeamId, kindId: nat): int
  {
    if (team, kindId) in counts then counts[(team, kindId)] else 0
  }

  /**
   * Counting is per (team, kind): moving one pair's count by `delta` moves that pair's
   * reading by exactly `delta` and leaves every other team's and kind's reading as it was.
   */
  lemma CountUpdated(counts: map<(TeamId, nat), int>, team: TeamId, kindId: nat, delta: int,
                     team2: TeamId, kindId2: nat)
    ensures CountIn(counts[(team, kindId) := CountIn(counts, team, kindId) + delta], team2, kindId2)
         == CountIn(counts, team2, kindId2) + (if (team2, kindId2) == (team, kindId) then delta else 0)
  {
  }

  /** A new controller from the kind's factory, not yet attached. */
  function CreateController(t: UnitType): UnitController
  {
    UnitController(t.defaultController, None, true)
  }

  /** One freshly set-up mount per weapon of the kind. */
  function FreshMounts(t: UnitType): (ms: seq<WeaponMount>)
    ensures |ms| == |t.weapons|
    ensures forall i :: 0 <= i < |ms| ==> ms[i].weapon == t.weapons[i]
  {
    seq(|t.weapons|, i requires 0 <= i < |t.weapons| => WeaponMount(t.weapons[i], 0.0, false))
  }

  /** How explosive the wreck is, from the carried stack. */
  function Explosiveness(s: ItemStack): (r: real)
    ensures s.amount == 0 ==> r == 2.0
    ensures s.item.explosiveness >= 0.0 && s.amount >= 0 ==> r >= 2.0
    ensures s.item.explosiveness >= 0.0 && s.amount <= 0 ==> r <= 2.0
  {
    2.0 + s.item.explosiveness * (s.amount as real) * 1.53
  }

  /** A mount that fires when its unit dies: unless its bullet kills the shooter and it is already shooting. */
  predicate FiresOnDeath(m: WeaponMount)
  {
    m.weapon.shootOnDeath && !(m.weapon.bulletKillsShooter && m.shoot)
  }

  /** The mounts after the death volley: those that fire are reloaded and set shooting. */
  function FiredOnDeath(ms: seq<WeaponMount>): (r: seq<WeaponMount>)
    ensures |r| == |ms|
    ensures forall i :: 0 <= i < |ms| ==> r[i].weapon == ms[i].weapon
    ensures forall i :: 0 <= i < |ms| && FiresOnDeath(ms[i]) ==> r[i].shoot && r[i].reload == 0.0
    ensures forall i :: 0 <= i < |ms| && !FiresOnDeath(ms[i]) ==> r[i] == ms[i]
  {
    seq(|ms|, i requires 0 <= i < |ms| => if FiresOnDeath(ms[i]) then ms[i].(reload := 0.0, shoot := true) else ms[i])
  }

  /** The weapon updates requested by the death volley, in mount order. */
  function DeathShots(u: UnitId, ms: seq<WeaponMount>): seq<Hook>
  {
    if ms == [] then []
    else DeathShots(u, ms[..|ms| - 1]) + (if FiresOnDeath(ms[|ms| - 1]) then [DeathShot(u, |ms| - 1)] else [])
  }

  function AbilityUpdates(u: UnitId, n: nat): seq<Hook>
  {
    seq(n, i requires 0 <= i => AbilityUpdate(u, i))
  }

  function AbilityDeaths(u: UnitId, n: nat): seq<Hook>
  {
    seq(n, i requires 0 <= i => AbilityDeath(u, i))
  }

  /** The events a destruction publishes: the destroy event, and a suicide bomb when explosive enough and caused by a local player. */
  function DeathEvents(u: UnitId, s: ItemStack, byLocalPlayer: bool): (es: seq<GameEvent>)
    ensures |es| >= 1 && es[0] == UnitDestroyEvent(u)
    ensures SuicideBomb in es <==> Explosiveness(s) > SuicideBombThreshold && byLocalPlayer
  {
    [UnitDestroyEvent(u)] + (if Explosiveness(s) > SuicideBombThreshold && byLocalPlayer then [SuicideBomb] else [])
  }

  /** The heal pulse timer after one tick. */
  function NextHealTime(healTime: real, wasHealed: bool, delta: real): real
  {
    (if wasHealed && healTime <= -1.0 then 1.0 else healTime) - delta / 20.0
  }

  /** The unit is short of ammo under the ammo rule, so its resupply timer runs. */
  predicate ResupplyRuns(rules: Rules, ammo: real, t: UnitType)
  {
    rules.unitAmmo && ammo < (t.ammoCapacity as real) - 0.0001
  }

  /** The world's team data and the logs of what units asked of the rest of the game. */
  class GameState {
    var typeCounts: map<(TeamId, nat), int>
    var calls: seq<RemoteCall>
    var events: seq<GameEvent>
    var hooks: seq<Hook>

    constructor ()
      ensures typeCounts == map[] && calls == [] && events == [] && hooks == []
    {
      typeCounts := map[];
      calls := [];
      events := [];
      hooks := [];
    }

    /** The live count of a team's units of a kind. */
    function Count(team: TeamId, t: UnitType): int
      reads this
    {
      CountIn(typeCounts, team, t.id)
    }

    method UpdateCount(team: TeamId, t: UnitType, delta: int)
      modifies this`typeCounts
      ensures typeCounts == old(typeCounts)[(team, t.id) := old(Count(team, t)) + delta]
      ensures Count(team, t) == old(Count(team, t)) + delta
    {
      typeCounts := typeCounts[(team, t.id) := Count(team, t) + delta];
    }
  }

  class Unit {
    const id: UnitId
    var team: TeamId
    var kind: UnitType
    var controller: Option<UnitController>
    var spawnedByCore: bool
    var flag: real
    var added: bool
    var dead: bool
    var disarmed: bool
    var hovering: bool
    var health: real
    var maxHealth: real
    var drag: real
    var dragMultiplier: real
    var armor: real
    var hitSize: real
    var elevation: real
    var x: real
    var y: real
    var rotation: real
    var aimX: real
    var aimY: real
    var shooting: bool
    var ammo: real
    var stack: ItemStack
    var mineTile: Option<Tile>
    var activelyBuilding: bool
    /** The payloads carried, or None for a kind without payload capability. */
    var payloads: Option<seq<Payload>>
    var mounts: seq<WeaponMount>
    var abilities: seq<Ability>
    var healTime: real
    var resupplyTime: real
    var wasPlayer: bool
    var wasHealed: bool

    /** The unit has a controller and mounts and abilities matching its kind. */
    ghost predicate Valid()
      reads this
    {
      && controller.Some?
      && |mounts| == |kind.weapons|
      && |abilities| == |kind.abilities|
    }

    /** A unit bound to its kind and the kind's default controller, not yet added to the world. */
    constructor (id: UnitId, team: TeamId, t: UnitType, emptyItem: Item, carriesPayloads: bool, resupplyPhase: real)
      requires 0.0 <= resupplyPhase < ResupplyInterval
      ensures Valid() && !added && !dead
      ensures this.id == id && this.team == team && kind == t
      ensures maxHealth == t.health && health == t.health && drag == t.drag && armor == t.armor
      ensures hitSize == t.hitSize && hovering == t.hovering
      ensures controller == Some(CreateController(t).(unit := Some(id)))
      ensures mounts == FreshMounts(t) && abilities == t.abilities
      ensures stack == ItemStack(emptyItem, 0) && payloads == (if carriesPayloads then Some([]) else None)
      ensures resupplyTime == resupplyPhase
    {
      this.id := id;
      this.team := team;
      kind := t;
      controller := Some(CreateController(t).(unit := Some(id)));
      spawnedByCore := false;
      flag := 0.0;
      added := false;
      dead := false;
      disarmed := false;
      hovering := t.hovering;
      health := t.health;
      maxHealth := t.health;
      drag := t.drag;
      dragMultiplier := 1.0;
      armor := t.armor;
      hitSize := t.hitSize;
      elevation := 0.0;
      x, y, rotation, aimX, aimY := 0.0, 0.0, 0.0, 0.0, 0.0;
      shooting := false;
      ammo := 0.0;
      stack := ItemStack(emptyItem, 0);
      mineTile := None;
      activelyBuilding := false;
      payloads := if carriesPayloads then Some([]) else None;
      mounts := FreshMounts(t);
      abilities := t.abilities;
      healTime := 0.0;
      resupplyTime := resupplyPhase;
      wasPlayer := false;
      wasHealed := false;
    }

    function Key(): (TeamId, nat)
      reads this
    {
      (team, kind.id)
    }

    function IsGrounded(): bool
      reads this
    {
      elevation < GroundedBelow
    }

    function IsFlying(): bool
      reads this
    {
      elevation >= FlyingFrom
    }

    /** Alive and in the world. */
    function IsValid(): bool
      reads this
    {
      !dead && added
    }

    function IsPlayer(): bool
      reads this
    {
      controller.Some? && controller.value.kind.PlayerControl?
    }

    function IsMining(): bool
      reads this
    {
      mineTile.Some? && !activelyBuilding
    }

    /**
     * The numeric sensor query. Every numeric sensor answers a number and every other
     * sensor answers NaN; `ammo` is the full capacity when the ammo rule is off; `dead`
     * reads 1 exactly for an invalid unit. The mine and control codes are stated by
     * `SensedMineSentinel` and `SensedControlCodes`.
     */
    function Sense(s: Sensor, rules: Rules): (r: Sensed)
      reads this
      ensures !IsNumericSensor(s) ==> r == NaN
      ensures IsNumericSensor(s) ==> r.Num?
      ensures s == Ammo ==> r == Num(if rules.unitAmmo then ammo else kind.ammoCapacity as real)
      ensures s == Dead ==> (r == Num(1.0) <==> !IsValid()) && (r == Num(0.0) <==> IsValid())
      ensures s == PayloadCount && payloads.None? ==> r == Num(0.0)
      ensures s == PayloadCount && payloads.Some? ==> r == Num(|payloads.value| as real)
    {
      match s
      case TotalItems => Num(stack.amount as real)
      case ItemCapacity => Num(kind.itemCapacity as real)
      case Rotation => Num(rotation)
      case Health => Num(health)
      case MaxHealth => Num(maxHealth)
      case Ammo => Num(if !rules.unitAmmo then kind.ammoCapacity as real else ammo)
      case AmmoCapacity => Num(kind.ammoCapacity as real)
      case X => Num(x / TileSize)
      case Y => Num(y / TileSize)
      case Dead => Num(if dead || !added then 1.0 else 0.0)
      case Team => Num(team as real)
      case Shooting => Num(if shooting then 1.0 else 0.0)
      case Boosting => Num(if kind.canBoost && IsFlying() then 1.0 else 0.0)
      case Range => Num(kind.maxRange / TileSize)
      case ShootX => Num(aimX / TileSize)
      case ShootY => Num(aimY / TileSize)
      case Mining => Num(if IsMining() then 1.0 else 0.0)
      case MineX => Num(if IsMining() then mineTile.value.0 as real else -1.0)
      case MineY => Num(if IsMining() then mineTile.value.1 as real else -1.0)
      case Flag => Num(flag)
      case Controlled =>
        Num(if !IsValid() || controller.None? then 0.0
            else match controller.value.kind
              case LogicControl(_) => CtrlProcessor as real
              case PlayerControl(_) => CtrlPlayer as real
              case FormationControl(_) => CtrlFormation as real
              case OtherAI(_) => 0.0)
      case Commanded =>
        Num(if controller.Some? && controller.value.kind.FormationControl? && IsValid() then 1.0 else 0.0)
      case PayloadCount => Num(if payloads.Some? then |payloads.value| as real else 0.0)
      case Size => Num(hitSize / TileSize)
      case _ => NaN
    }

    /**
     * The object sensor query: the kind, the controlling player's name, the first carried
     * item, the controlling entity and the type of the top payload, each possibly null;
     * every other sensor answers the no-object marker.
     */
    function SenseObject(s: Sensor): (r: SensedObject)
      reads this
      ensures !IsObjectSensor(s) ==> r == NoSensed
      ensures IsObjectSensor(s) ==> r != NoSensed
      ensures s == Type ==> r == KindObject(kind)
      ensures s == Name ==> (r != Null <==> IsPlayer())
      ensures s == Name && IsPlayer() ==> r == NameObject(controller.value.kind.name)
      ensures s == FirstItem ==> (r == Null <==> stack.amount == 0)
      ensures s == FirstItem && stack.amount != 0 ==> r == ItemObject(stack.item)
      ensures s == Controller && !IsValid() ==> r == Null
      ensures s == Controller && IsValid() && (controller.None? || controller.value.kind.PlayerControl? || controller.value.kind.OtherAI?) ==>
        r == UnitObject(id)
      ensures s == Controller && IsValid() && controller.Some? && controller.value.kind.LogicControl? ==>
        r == (if controller.value.kind.processor.Some? then BuildingObject(controller.value.kind.processor.value) else Null)
      ensures s == Controller && IsValid() && controller.Some? && controller.value.kind.FormationControl? ==>
        r == (if controller.value.kind.leader.Some? then UnitObject(controller.value.kind.leader.value) else Null)
      ensures s == PayloadType && (payloads.None? || payloads.value == []) ==> r == Null
      ensures s == PayloadType && payloads.Some? && payloads.value != [] ==>
        var top := payloads.value[|payloads.value| - 1];
        r == (if top.UnitPayload? then KindObject(top.unitKind) else BlockObject(top.block))
    {
      match s
      case Type => KindObject(kind)
      case Name =>
        if controller.Some? && controller.value.kind.PlayerControl? then NameObject(controller.value.kind.name) else Null
      case FirstItem => if stack.amount == 0 then Null else ItemObject(stack.item)
      case Controller =>
        if !IsValid() then Null
        else if controller.None? then UnitObject(id)
        else (match controller.value.kind
          case LogicControl(p) => if p.Some? then BuildingObject(p.value) else Null
          case FormationControl(l) => if l.Some? then UnitObject(l.value) else Null
          case _ => UnitObject(id))
      case PayloadType =>
        if payloads.None? || payloads.value == [] then Null
        else (match payloads.value[|payloads.value| - 1]
          case UnitPayload(t) => KindObject(t)
          case BuildPayload(b) => BlockObject(b))
      case _ => NoSensed
    }

    /** Sensing an item kind: the carried amount if it is the carried item, NaN otherwise. */
    function SenseContent(content: Item): (r: Sensed)
      reads this
      ensures r.Num? <==> content == stack.item
      ensures r.Num? ==> r.value == stack.amount as real
    {
      if content == stack.item then Num(stack.amount as real) else NaN
    }

    /** A unit cannot shoot while disarmed or while boosting; nothing else stops it. */
    function CanShoot(): (r: bool)
      reads this
      ensures r ==> !disarmed
      ensures kind.canBoost && IsFlying() ==> !r
      ensures !r && !disarmed ==> kind.canBoost && IsFlying()
    {
      !disarmed && !(kind.canBoost && IsFlying())
    }

    /** Only a grounded, non-hovering unit of a kind that can drown can drown. */
    function CanDrown(): (r: bool)
      reads this
      ensures r ==> IsGrounded() && !IsFlying() && !hovering && kind.canDrown
      ensures elevation < GroundedBelow && !hovering && kind.canDrown ==> r
    {
      IsGrounded() && !hovering && kind.canDrown
    }

    /** Attaches a controller: it becomes this unit's controller and its unit is this one. */
    method SetController(next: UnitController)
      modifies this`controller
      ensures controller == Some(next.(unit := Some(id)))
    {
      controller := Some(next);
      if next.unit != Some(id) {
        controller := Some(next.(unit := Some(id)));
      }
    }

    /** Replaces the controller by a new one from the kind's factory. */
    method ResetController()
      modifies this`controller
      ensures controller == Some(CreateController(kind).(unit := Some(id)))
    {
      SetController(CreateController(kind));
    }

    /**
     * Re-synchronises the unit with a kind: copies its stats, gives it a controller if it
     * had none, and rebuilds mounts and abilities when their counts differ from the kind's.
     */
    method SetType(t: UnitType)
      modifies this`kind, this`maxHealth, this`drag, this`armor, this`hitSize, this`hovering
      modifies this`controller, this`mounts, this`abilities
      ensures Valid()
      ensures kind == t && maxHealth == t.health && drag == t.drag && armor == t.armor
      ensures hitSize == t.hitSize && hovering == t.hovering
      ensures old(controller).Some? ==> controller == old(controller)
      ensures old(controller).None? ==> controller == Some(CreateController(t).(unit := Some(id)))
      ensures mounts == if |old(mounts)| == |t.weapons| then old(mounts) else FreshMounts(t)
      ensures abilities == if |old(abilities)| == |t.abilities| then old(abilities) else t.abilities
    {
      kind := t;
      maxHealth := t.health;
      drag := t.drag;
      armor := t.armor;
      hitSize := t.hitSize;
      hovering := t.hovering;
      if controller.None? {
        SetController(CreateController(t));
      }
      if |mounts| != |t.weapons| {
        mounts := FreshMounts(t);
      }
      if |abilities| != |t.abilities| {
        abilities := t.abilities;
      }
    }

    /** Binds a kind and a controller; the kind is re-synchronised only when it differs. */
    method Set(def: UnitType, next: UnitController)
      modifies this`kind, this`maxHealth, this`drag, this`armor, this`hitSize, this`hovering
      modifies this`controller, this`mounts, this`abilities
      ensures kind == def && controller == Some(next.(unit := Some(id)))
      ensures old(kind) == def ==>
        && maxHealth == old(maxHealth) && drag == old(drag) && armor == old(armor)
        && hitSize == old(hitSize) && hovering == old(hovering)
        && mounts == old(mounts) && abilities == old(abilities)
      ensures old(kind) != def ==>
        && maxHealth == def.health && drag == def.drag && armor == def.armor
        && hitSize == def.hitSize && hovering == def.hovering
        && mounts == (if |old(mounts)| == |def.weapons| then old(mounts) else FreshMounts(def))
        && abilities == (if |old(abilities)| == |def.abilities| then old(abilities) else def.abilities)
      ensures old(kind) != def || old(Valid()) ==> Valid()
    {
      if kind != def {
        SetType(def);
      }
      SetController(next);
    }

    /**
     * Entering the world: the (team, kind) count rises by one; when that passes the cap and
     * the unit is not core-spawned, not dead and not in the editor, a cap death is requested
     * and the count is rolled back. Adding an added unit does nothing.
     */
    method Add(gs: GameState, cap: int, rules: Rules)
      modifies this`added, gs`typeCounts, gs`calls
      ensures added
      ensures old(added) ==> gs.typeCounts == old(gs.typeCounts) && gs.calls == old(gs.calls)
      ensures !old(added) ==>
        var overCap := old(gs.Count(team, kind)) + 1 > cap && !spawnedByCore && !dead && !rules.editor;
        && gs.Count(team, kind) == old(gs.Count(team, kind)) + (if overCap then 0 else 1)
        && gs.typeCounts == old(gs.typeCounts)[Key() := gs.Count(team, kind)]
        && gs.calls == old(gs.calls) + (if overCap then [UnitCapDeath(id)] else [])
    {
      if added {
        return;
      }
      added := true;
      gs.UpdateCount(team, kind, 1);
      if gs.Count(team, kind) > cap && !spawnedByCore && !dead && !rules.editor {
        gs.calls := gs.calls + [UnitCapDeath(id)];
        gs.UpdateCount(team, kind, -1);
      }
    }

    /**
     * Leaving the world: the (team, kind) count drops by exactly one and the controller is
     * told. Removing a unit that is not added does nothing.
     */
    method Remove(gs: GameState)
      requires Valid()
      modifies this`added, gs`typeCounts, gs`hooks
      ensures !added
      ensures !old(added) ==> gs.typeCounts == old(gs.typeCounts) && gs.hooks == old(gs.hooks)
      ensures old(added) ==>
        && gs.typeCounts == old(gs.typeCounts)[Key() := old(gs.Count(team, kind)) - 1]
        && gs.hooks == old(gs.hooks) + [ControllerRemoved(id)]
    {
      if !added {
        return;
      }
      added := false;
      gs.UpdateCount(team, kind, -1);
      gs.hooks := gs.hooks + [ControllerRemoved(id)];
    }

    /** Healing a damaged unit by a positive amount arms the heal pulse. */
    method Heal(amount: real)
      modifies this`wasHealed
      ensures wasHealed == (old(wasHealed) || (health < maxHealth && amount > 0.0))
    {
      if health < maxHealth && amount > 0.0 {
        wasHealed := true;
      }
    }

    /** Asks for this unit's death; only the authority asks, and only for a living unit. */
    method Kill(gs: GameState, rules: Rules)
      modifies gs`calls
      ensures gs.calls == old(gs.calls) + (if dead || rules.client then [] else [UnitDeath(id)])
    {
      if dead || rules.client {
        return;
      }
      gs.calls := gs.calls + [UnitDeath(id)];
    }

    /** Fires the death volley: each mount that fires on death is reloaded, set shooting and updated. */
    method FireDeathVolley(gs: GameState)
      modifies this`mounts, gs`hooks
      ensures mounts == FiredOnDeath(old(mounts))
      ensures gs.hooks == old(gs.hooks) + DeathShots(id, old(mounts))
    {
      var i := 0;
      while i < |mounts|
        invariant 0 <= i <= |mounts| == |old(mounts)|
        invariant mounts[..i] == FiredOnDeath(old(mounts))[..i]
        invariant mounts[i..] == old(mounts)[i..]
        invariant gs.hooks == old(gs.hooks) + DeathShots(id, old(mounts)[..i])
      {
        assert mounts[i] == old(mounts)[i];
        assert old(mounts)[..i + 1][..i] == old(mounts)[..i];
        if FiresOnDeath(mounts[i]) {
          mounts := mounts[i := mounts[i].(reload := 0.0, shoot := true)];
          gs.hooks := gs.hooks + [DeathShot(id, i)];
        }
        i := i + 1;
      }
      assert mounts == mounts[..i];
      assert old(mounts)[..i] == old(mounts);
    }

    /** Runs every ability's death hook, in order. */
    method AbilitiesDie(gs: GameState)
      modifies gs`hooks
      ensures gs.hooks == old(gs.hooks) + AbilityDeaths(id, |abilities|)
    {
      for i := 0 to |abilities|
        invariant gs.hooks == old(gs.hooks) + AbilityDeaths(id, i)
      {
        assert AbilityDeaths(id, i + 1) == AbilityDeaths(id, i) + [AbilityDeath(id, i)];
        gs.hooks := gs.hooks + [AbilityDeath(id, i)];
      }
    }

    /** The explosion, the destroy event, and the suicide-bomb trigger of a destruction. */
    method AnnounceDeath(gs: GameState, local: bool)
      modifies gs`events, gs`hooks
      ensures gs.hooks == old(gs.hooks) + [DeathExplosion(id, !spawnedByCore)]
      ensures gs.events == old(gs.events) + DeathEvents(id, stack, local || wasPlayer)
    {
      var explosiveness := Explosiveness(stack);
      gs.hooks := gs.hooks + [DeathExplosion(id, !spawnedByCore)];
      gs.events := gs.events + [UnitDestroyEvent(id)];
      if explosiveness > SuicideBombThreshold && (local || wasPlayer) {
        gs.events := gs.events + [SuicideBomb];
      }
    }

    /**
     * Destroys the unit once: a unit that is not added is left alone; otherwise the death
     * explosion, the destroy event (and a suicide bomb when explosive and caused by a local
     * player), the death volley, crash damage for a flying kind, the ability death hooks,
     * and finally exactly one removal.
     */
    method Destroy(gs: GameState, local: bool)
      requires Valid()
      modifies this`added, this`mounts, gs`typeCounts, gs`events, gs`hooks
      ensures Valid() && !added
      ensures !old(added) ==>
        mounts == old(mounts) && gs.typeCounts == old(gs.typeCounts)
        && gs.events == old(gs.events) && gs.hooks == old(gs.hooks)
      ensures old(added) ==>
        && gs.typeCounts == old(gs.typeCounts)[Key() := old(gs.Count(team, kind)) - 1]
        && gs.events == old(gs.events) + DeathEvents(id, stack, local || wasPlayer)
        && mounts == FiredOnDeath(old(mounts))
        && gs.hooks == old(gs.hooks) + [DeathExplosion(id, !spawnedByCore)] + DeathShots(id, old(mounts))
             + (if kind.flying && !spawnedByCore then [CrashDamage(id)] else [])
             + AbilityDeaths(id, |abilities|) + [ControllerRemoved(id)]
    {
      if !added {
        return;
      }
      AnnounceDeath(gs, local);
      ghost var h1 := gs.hooks;
      FireDeathVolley(gs);
      ghost var h2 := gs.hooks;
      if kind.flying && !spawnedByCore {
        gs.hooks := gs.hooks + [CrashDamage(id)];
      }
      ghost var h3 := gs.hooks;
      AbilitiesDie(gs);
      ghost var h4 := gs.hooks;
      Remove(gs);
      assert gs.hooks == h4 + [ControllerRemoved(id)];
      assert h4 == h3 + AbilityDeaths(id, |abilities|);
      assert h3 == h2 + (if kind.flying && !spawnedByCore then [CrashDamage(id)] else []);
      assert h2 == h1 + DeathShots(id, old(mounts));
    }

    /**
     * Applies a death: records whether a local player caused it, caps health at zero, marks
     * the unit dead, and destroys it at once unless its kind flies (a flying unit falls first).
     */
    method Killed(gs: GameState, local: bool)
      requires Valid()
      modifies this`wasPlayer, this`health, this`dead, this`added, this`mounts
      modifies gs`typeCounts, gs`events, gs`hooks
      ensures Valid()
      ensures dead && wasPlayer == local && health <= 0.0
      ensures health == if old(health) < 0.0 then old(health) else 0.0
      ensures kind.flying ==>
        added == old(added) && mounts == old(mounts) && gs.typeCounts == old(gs.typeCounts)
        && gs.events == old(gs.events) && gs.hooks == old(gs.hooks)
      ensures !kind.flying ==> !added
      ensures !kind.flying && old(added) ==>
        && gs.typeCounts == old(gs.typeCounts)[Key() := old(gs.Count(team, kind)) - 1]
        && gs.events == old(gs.events) + DeathEvents(id, stack, local)
        && mounts == FiredOnDeath(old(mounts))
        && gs.hooks == old(gs.hooks) + [DeathExplosion(id, !spawnedByCore)] + DeathShots(id, old(mounts))
             + AbilityDeaths(id, |abilities|) + [ControllerRemoved(id)]
      ensures !kind.flying && !old(added) ==>
        && gs.typeCounts == old(gs.typeCounts) && gs.events == old(gs.events)
        && mounts == old(mounts) && gs.hooks == old(gs.hooks)
    {
      wasPlayer := local;
      health := if health < 0.0 then health else 0.0;
      dead := true;
      if !kind.flying {
        Destroy(gs, local);
      }
    }

    /** The timer of the cosmetic heal pulse. */
    method StepHealPulse(delta: real)
      modifies this`healTime, this`wasHealed
      ensures healTime == NextHealTime(old(healTime), old(wasHealed), delta) && !wasHealed
    {
      if wasHealed && healTime <= -1.0 {
        healTime := 1.0;
      }
      healTime := healTime - delta / 20.0;
      wasHealed := false;
    }

    /** Under the ammo rule a short unit accumulates time, and asks for resupply once it passes the interval. */
    method StepResupply(gs: GameState, rules: Rules, delta: real)
      modifies this`resupplyTime, gs`hooks
      ensures !ResupplyRuns(rules, ammo, kind) ==> resupplyTime == old(resupplyTime) && gs.hooks == old(gs.hooks)
      ensures ResupplyRuns(rules, ammo, kind) && old(resupplyTime) + delta > ResupplyInterval ==>
        resupplyTime == 0.0 && gs.hooks == old(gs.hooks) + [Resupply(id)]
      ensures ResupplyRuns(rules, ammo, kind) && old(resupplyTime) + delta <= ResupplyInterval ==>
        resupplyTime == old(resupplyTime) + delta && gs.hooks == old(gs.hooks)
    {
      if rules.unitAmmo && ammo < (kind.ammoCapacity as real) - 0.0001 {
        resupplyTime := resupplyTime + delta;
        if resupplyTime > ResupplyInterval {
          gs.hooks := gs.hooks + [Resupply(id)];
          resupplyTime := 0.0;
        }
      }
    }

    /** Advances every ability, in order. */
    method UpdateAbilities(gs: GameState)
      modifies gs`hooks
      ensures gs.hooks == old(gs.hooks) + AbilityUpdates(id, |abilities|)
    {
      for i := 0 to |abilities|
        invariant gs.hooks == old(gs.hooks) + AbilityUpdates(id, i)
      {
        assert AbilityUpdates(id, i + 1) == AbilityUpdates(id, i) + [AbilityUpdate(id, i)];
        gs.hooks := gs.hooks + [AbilityUpdate(id, i)];
      }
    }

    /** A dead or health-less unit falls with little drag and is destroyed once grounded or far below zero health. */
    method StepFalling(gs: GameState, delta: real)
      modifies this`drag, this`elevation, gs`calls
      ensures !(dead || health <= 0.0) ==> drag == old(drag) && elevation == old(elevation) && gs.calls == old(gs.calls)
      ensures dead || health <= 0.0 ==>
        && drag == DeadDrag
        && elevation == old(elevation) - kind.fallSpeed * delta
        && gs.calls == old(gs.calls) + (if elevation < GroundedBelow || health <= -maxHealth then [UnitDestroy(id)] else [])
    {
      if dead || health <= 0.0 {
        drag := DeadDrag;
        elevation := elevation - kind.fallSpeed * delta;
        if IsGrounded() || health <= -maxHealth {
          gs.calls := gs.calls + [UnitDestroy(id)];
        }
      }
    }

    /** The first phase of a tick: kind hook, heal pulse, environment check, resupply, abilities. */
    method UpdateStatus(gs: GameState, rules: Rules, delta: real, envSupported: bool)
      modifies this`healTime, this`wasHealed, this`resupplyTime, gs`typeCounts, gs`calls, gs`hooks
      ensures healTime == NextHealTime(old(healTime), old(wasHealed), delta) && !wasHealed
      ensures resupplyTime ==
        if !ResupplyRuns(rules, ammo, kind) then old(resupplyTime)
        else if old(resupplyTime) + delta > ResupplyInterval then 0.0
        else old(resupplyTime) + delta
      ensures gs.typeCounts ==
        if !envSupported && !dead then old(gs.typeCounts)[Key() := old(gs.Count(team, kind)) - 1]
        else old(gs.typeCounts)
      ensures gs.calls == old(gs.calls) + (if !envSupported && !dead then [UnitCapDeath(id)] else [])
      ensures gs.hooks == old(gs.hooks) + [TypeUpdate(id)]
        + (if ResupplyRuns(rules, ammo, kind) && old(resupplyTime) + delta > ResupplyInterval then [Resupply(id)] else [])
        + AbilityUpdates(id, |abilities|)
    {
      gs.hooks := gs.hooks + [TypeUpdate(id)];
      StepHealPulse(delta);
      if !envSupported && !dead {
        gs.calls := gs.calls + [UnitCapDeath(id)];
        gs.UpdateCount(team, kind, -1);
      }
      StepResupply(gs, rules, delta);
      UpdateAbilities(gs);
    }

    /** The second phase of a tick: floor drag, falling, and the blocked-tile rule. */
    method UpdateMotion(gs: GameState, rules: Rules, delta: real, blocked: bool, floorDrag: real)
      modifies this`drag, this`elevation, gs`calls
      ensures
        var falling := dead || health <= 0.0;
        var fallen := if falling then old(elevation) - kind.fallSpeed * delta else old(elevation);
        && drag == (if falling then DeadDrag
                    else kind.drag * (if old(elevation) < GroundedBelow then floorDrag else 1.0) * dragMultiplier)
        && elevation == (if blocked && kind.canBoost then 1.0 else fallen)
        && gs.calls == old(gs.calls)
             + (if falling && (fallen < GroundedBelow || health <= -maxHealth) then [UnitDestroy(id)] else [])
             + (if blocked && !kind.canBoost && !rules.client && !dead then [UnitDeath(id)] else [])
    {
      drag := kind.drag * (if IsGrounded() then floorDrag else 1.0) * dragMultiplier;
      StepFalling(gs, delta);
      if blocked {
        if kind.canBoost {
          elevation := 1.0;
        } else if !rules.client {
          Kill(gs, rules);
        }
      }
    }

    /** The last phase of a tick: the controller step with authority, controller repair, core despawn. */
    method UpdateControl(gs: GameState, rules: Rules)
      requires controller.Some?
      modifies this`controller, gs`calls, gs`hooks
      ensures controller ==
        if old(controller).value.valid then old(controller)
        else Some(CreateController(kind).(unit := Some(id)))
      ensures gs.hooks == old(gs.hooks) + (if !rules.client && !dead then [ControllerStep(id)] else [])
      ensures gs.calls == old(gs.calls) + (if spawnedByCore && !IsPlayer() && !dead then [UnitDespawn(id)] else [])
    {
      if !rules.client && !dead {
        gs.hooks := gs.hooks + [ControllerStep(id)];
      }
      if !controller.value.valid {
        ResetController();
      }
      if spawnedByCore && !IsPlayer() && !dead {
        gs.calls := gs.calls + [UnitDespawn(id)];
      }
    }

    /**
     * One tick. `envSupported` says whether the kind supports the rules' environment,
     * `blocked` whether the unit stands on a tile it cannot pass, `floorDrag` the drag
     * multiplier of the floor under it. The controller's decision step runs only with
     * authority and for a living unit; an invalid controller is replaced by the kind's default.
     */
    method Update(gs: GameState, rules: Rules, delta: real, envSupported: bool, blocked: bool, floorDrag: real)
      requires Valid()
      modifies this`healTime, this`wasHealed, this`resupplyTime, this`drag, this`elevation, this`controller
      modifies gs`typeCounts, gs`calls, gs`hooks
      ensures Valid()
      ensures healTime == NextHealTime(old(healTime), old(wasHealed), delta) && !wasHealed
      ensures resupplyTime ==
        if !ResupplyRuns(rules, ammo, kind) then old(resupplyTime)
        else if old(resupplyTime) + delta > ResupplyInterval then 0.0
        else old(resupplyTime) + delta
      ensures gs.typeCounts ==
        if !envSupported && !dead then old(gs.typeCounts)[Key() := old(gs.Count(team, kind)) - 1]
        else old(gs.typeCounts)
      ensures
        var falling := dead || health <= 0.0;
        var fallen := if falling then old(elevation) - kind.fallSpeed * delta else old(elevation);
        && drag == (if falling then DeadDrag
                    else kind.drag * (if old(elevation) < GroundedBelow then floorDrag else 1.0) * dragMultiplier)
        && elevation == (if blocked && kind.canBoost then 1.0 else fallen)
        && gs.calls == old(gs.calls)
             + (if !envSupported && !dead then [UnitCapDeath(id)] else [])
             + (if falling && (fallen < GroundedBelow || health <= -maxHealth) then [UnitDestroy(id)] else [])
             + (if blocked && !kind.canBoost && !rules.client && !dead then [UnitDeath(id)] else [])
             + (if spawnedByCore && !IsPlayer() && !dead then [UnitDespawn(id)] else [])
      ensures gs.hooks == old(gs.hooks) + [TypeUpdate(id)]
        + (if ResupplyRuns(rules, ammo, kind) && old(resupplyTime) + delta > ResupplyInterval then [Resupply(id)] else [])
        + AbilityUpdates(id, |abilities|)
        + (if !rules.client && !dead then [ControllerStep(id)] else [])
      ensures controller ==
        if old(controller).value.valid then old(controller)
        else Some(CreateController(kind).(unit := Some(id)))
    {
      ghost var calls0 := gs.calls;
      UpdateStatus(gs, rules, delta, envSupported);
      ghost var calls1 := gs.calls;
      UpdateMotion(gs, rules, delta, blocked, floorDrag);
      ghost var calls2 := gs.calls;
      UpdateControl(gs, rules);
      assert gs.calls == calls2 + (if spawnedByCore && !IsPlayer() && !dead then [UnitDespawn(id)] else []);
    }
  }

  /**
   * Destroying a unit twice unregisters it once: the count drops by exactly one, one
   * destroy event is published, and the second call changes nothing.
   */
  method DestroyTwice(u: Unit, gs: GameState, local: bool)
    requires u.Valid() && u.added
    modifies u`added, u`mounts, gs`typeCounts, gs`events, gs`hooks
    ensures !u.added
    ensures gs.Count(u.team, u.kind) == old(gs.Count(u.team, u.kind)) - 1
    ensures gs.events == old(gs.events) + DeathEvents(u.id, u.stack, local || u.wasPlayer)
  {
    u.Destroy(gs, local);
    ghost var once := gs.events;
    u.Destroy(gs, local);
    assert gs.events == once;
  }

  /** A boosting unit cannot shoot. */
  lemma BoostingUnitCannotShoot(u: Unit, rules: Rules)
    requires u.Sense(Boosting, rules) == Num(1.0)
    ensures !u.CanShoot()
  {
  }

  /** `commanded` reads 1 exactly when `controlled` reads the formation code. */
  lemma CommandedMatchesControlled(u: Unit, rules: Rules)
    ensures u.Sense(Commanded, rules) == Num(1.0) <==> u.Sense(Controlled, rules) == Num(CtrlFormation as real)
  {
  }

  /** The death volley asks only for shots of mounts that fire on death, each at most once, in mount order. */
  lemma {:induction false} DeathShotsOnlyFiring(u: UnitId, ms: seq<WeaponMount>)
    ensures |DeathShots(u, ms)| <= |ms|
    ensures forall k :: 0 <= k < |DeathShots(u, ms)| ==>
      var h := DeathShots(u, ms)[k];
      h.DeathShot? && h.unit == u && k <= h.mount < |ms| && FiresOnDeath(ms[h.mount])
    ensures forall k, l :: 0 <= k < l < |DeathShots(u, ms)| ==> DeathShots(u, ms)[k].mount < DeathShots(u, ms)[l].mount
    ensures forall i :: 0 <= i < |ms| && FiresOnDeath(ms[i]) ==> DeathShot(u, i) in DeathShots(u, ms)
  {
    if ms != [] {
      var init := ms[..|ms| - 1];
      DeathShotsOnlyFiring(u, init);
      assert forall i :: 0 <= i < |init| ==> init[i] == ms[i];
      forall i | 0 <= i < |init| && FiresOnDeath(ms[i]) ensures DeathShot(u, i) in DeathShots(u, ms) {
        assert FiresOnDeath(init[i]);
      }
    }
  }

  /** A unit that senses as dead senses as uncontrolled and without a controlling entity. */
  lemma DeadUnitsAreUncontrolled(u: Unit, rules: Rules)
    requires u.Sense(Dead, rules) == Num(1.0)
    ensures u.Sense(Controlled, rules) == Num(0.0)
    ensures u.Sense(Commanded, rules) == Num(0.0)
    ensures u.SenseObject(Controller) == Null
  {
  }

  /**
   * An add that hits the cap rolls the count back, so the later removal of that same unit
   * lowers its (team, kind) count to one below where it started.
   */
  method CappedAddThenRemove(u: Unit, gs: GameState, cap: int, rules: Rules)
    requires u.Valid() && !u.added
    modifies u`added, gs`typeCounts, gs`calls, gs`hooks
    ensures !u.added
    ensures
      var overCap := old(gs.Count(u.team, u.kind)) + 1 > cap && !u.spawnedByCore && !u.dead && !rules.editor;
      && gs.Count(u.team, u.kind) == old(gs.Count(u.team, u.kind)) - (if overCap then 1 else 0)
      && gs.calls == old(gs.calls) + (if overCap then [UnitCapDeath(u.id)] else [])
  {
    u.Add(gs, cap, rules);
    u.Remove(gs);
  }

  /** The mine coordinates read -1 unless the unit is mining, and the mined tile's coordinates when it is. */
  lemma SensedMineSentinel(u: Unit, rules: Rules)
    ensures !u.IsMining() ==> u.Sense(MineX, rules) == Num(-1.0) && u.Sense(MineY, rules) == Num(-1.0)
    ensures u.IsMining() ==>
      u.Sense(MineX, rules) == Num(u.mineTile.value.0 as real) && u.Sense(MineY, rules) == Num(u.mineTile.value.1 as real)
  {
  }

  /**
   * `controlled` reads 0 for an invalid unit, otherwise the processor, player or formation
   * code of its controller, and 0 for any other controller; `commanded` reads 1 exactly for a
   * valid unit under formation control.
   */
  lemma SensedControlCodes(u: Unit, rules: Rules)
    requires u.controller.Some?
    ensures !u.IsValid() ==> u.Sense(Controlled, rules) == Num(0.0)
    ensures u.IsValid() ==> u.Sense(Controlled, rules) == Num(
      match u.controller.value.kind
      case LogicControl(_) => CtrlProcessor as real
      case PlayerControl(_) => CtrlPlayer as real
      case FormationControl(_) => CtrlFormation as real
      case OtherAI(_) => 0.0)
    ensures u.Sense(Commanded, rules) == Num(1.0) <==> u.IsValid() && u.controller.value.kind.FormationControl?
  {
  }

  /**
   * A unit is player-controlled exactly when its `controlled` sensor reads the player code
   * while it is valid, and exactly when its `name` sensor names someone.
   */
  lemma PlayerControlCode(u: Unit, rules: Rules)
    ensures u.IsValid() ==> (u.IsPlayer() <==> u.Sense(Controlled, rules) == Num(CtrlPlayer as real))
    ensures u.IsPlayer() <==> u.SenseObject(Name) != Null
  {
  }

  /** An empty or non-explosive load never sets off the suicide-bomb trigger. */
  lemma HarmlessLoadNeverBombs(u: UnitId, s: ItemStack, byLocalPlayer: bool)
    requires s.item.explosiveness >= 0.0 && s.amount <= 0
    ensures DeathEvents(u, s, byLocalPlayer) == [UnitDestroyEvent(u)]
  {
  }
}
