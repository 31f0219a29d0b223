/**
 * The Entity class of Entity.h: one simulated object (the player, a platform
 * or an enemy). Its fields are overwritten in place by the setters and by the
 * thrust and move commands; each such method may change exactly the field it
 * names, which its `modifies` clause states. The getters are functions that
 * read one field each, so they cannot change anything.
 *
 * check_collision, update, ai_slime_move, regular_move and both constructors
 * (the default one and the seven-argument one) are declared in Entity.h and
 * defined outside main.cpp and Entity.h; this model does not cover their
 * definitions, and the game loop records the calls it makes to them. The
 * m_model_matrix field and the animation fields are left out. normalise_acceleration is
 * modelled at its one call site in process_input (GameLoop.Game.ProcessInput).
 */
module Entities {

  /** EntityType: a closed set of three roles. */
  datatype EntityType = Platform | Player | Enemy

  /** glm::vec3, with the float components modelled as reals. */
  datatype Vec3 = Vec3(x: real, y: real, z: real)

  const ZERO: Vec3 := Vec3(0.0, 0.0, 0.0)

  /** Entity::GRAVITY, folded into the vertical thrust. */
  const GRAVITY: real := 0.2

  /** The horizontal speed written by move_left and move_right. */
  const MOVE_SPEED: real := 0.15

  class Entity {
    var fuel: int
    var entityType: EntityType
    var position: Vec3
    var scale: Vec3
    var velocity: Vec3
    var acceleration: Vec3
    var speed: real
    var ascPower: real
    var isAscending: bool
    var fuelIsUsing: bool
    var textureId: nat
    var width: real
    var height: real
    var collidedTop: bool
    var collidedBottom: bool
    var collidedLeft: bool
    var collidedRight: bool
    var isMoveRight: bool

    /**
     * The default constructor, used for the platform and enemy arrays. Only
     * the in-class initialisers of Entity.h are modelled; the constructor
     * itself is defined outside main.cpp and Entity.h and this model does not
     * cover it, so nothing is promised about the other fields.
     */
    constructor ()
      ensures width == 1.0 && height == 1.0
      ensures !collidedTop && !collidedBottom && !collidedLeft && !collidedRight
      ensures isMoveRight
    {
      width := 1.0;
      height := 1.0;
      collidedTop := false;
      collidedBottom := false;
      collidedLeft := false;
      collidedRight := false;
      isMoveRight := true;
    }

    // ----- thrust and movement commands -----

    method AccelerateLeft()
      modifies this`acceleration
      ensures acceleration == Vec3(-ascPower, old(acceleration).y, old(acceleration).z)
    {
      acceleration := acceleration.(x := -ascPower);
    }

    method AccelerateRight()
      modifies this`acceleration
      ensures acceleration == Vec3(ascPower, old(acceleration).y, old(acceleration).z)
    {
      acceleration := acceleration.(x := ascPower);
    }

    /** Upward thrust has gravity already subtracted. */
    method AccelerateUp()
      modifies this`acceleration
      ensures acceleration == Vec3(old(acceleration).x, ascPower - GRAVITY, old(acceleration).z)
    {
      acceleration := acceleration.(y := ascPower - GRAVITY);
    }

    /** Downward thrust adds to gravity. */
    method AccelerateDown()
      modifies this`acceleration
      ensures acceleration == Vec3(old(acceleration).x, -ascPower - GRAVITY, old(acceleration).z)
    {
      acceleration := acceleration.(y := -ascPower - GRAVITY);
    }

    /** Sets the horizontal velocity outright; the thrust power plays no part. */
    method MoveLeft()
      modifies this`velocity
      ensures velocity == Vec3(-MOVE_SPEED, old(velocity).y, old(velocity).z)
    {
      velocity := velocity.(x := -MOVE_SPEED);
    }

    method MoveRight()
      modifies this`velocity
      ensures velocity == Vec3(MOVE_SPEED, old(velocity).y, old(velocity).z)
    {
      velocity := velocity.(x := MOVE_SPEED);
    }

    /** Raises the ascending flag whatever it was, so a second call changes nothing. */
    method PowerUp()
      modifies this`isAscending
      ensures isAscending
    {
      isAscending := true;
    }

    /** Raises the fuel-in-use flag whatever it was, so a second call changes nothing. */
    method FuelUsing()
      modifies this`fuelIsUsing
      ensures fuelIsUsing
    {
      fuelIsUsing := true;
    }

    // ----- getters: each reads one field -----

    function GetEntityType(): EntityType reads this`entityType { entityType }
    function GetPosition(): Vec3 reads this`position { position }
    function GetVelocity(): Vec3 reads this`velocity { velocity }
    function GetAcceleration(): Vec3 reads this`acceleration { acceleration }
    function GetScale(): Vec3 reads this`scale { scale }
    function GetTextureId(): nat reads this`textureId { textureId }
    function GetSpeed(): real reads this`speed { speed }
    function GetCollidedTop(): bool reads this`collidedTop { collidedTop }
    function GetCollidedBottom(): bool reads this`collidedBottom { collidedBottom }
    function GetCollidedRight(): bool reads this`collidedRight { collidedRight }
    function GetCollidedLeft(): bool reads this`collidedLeft { collidedLeft }
    function GetWidth(): real reads this`width { width }
    function GetHeight(): real reads this`height { height }
    function GetFuel(): int reads this`fuel { fuel }

    // ----- setters: each writes one field and validates nothing -----

    method SetEntityType(newEntityType: EntityType)
      modifies this`entityType
      ensures entityType == newEntityType
    {
      entityType := newEntityType;
    }

    method SetPosition(newPosition: Vec3)
      modifies this`position
      ensures position == newPosition
    {
      position := newPosition;
    }

    method SetVelocity(newVelocity: Vec3)
      modifies this`velocity
      ensures velocity == newVelocity
    {
      velocity := newVelocity;
    }

    method SetAcceleration(newAcceleration: Vec3)
      modifies this`acceleration
      ensures acceleration == newAcceleration
    {
      acceleration := newAcceleration;
    }

    method SetScale(newScale: Vec3)
      modifies this`scale
      ensures scale == newScale
    {
      scale := newScale;
    }

    method SetTextureId(newTextureId: nat)
      modifies this`textureId
      ensures textureId == newTextureId
    {
      textureId := newTextureId;
    }

    method SetSpeed(newSpeed: real)
      modifies this`speed
      ensures speed == newSpeed
    {
      speed := newSpeed;
    }

    method SetAscPower(newAscPower: real)
      modifies this`ascPower
      ensures ascPower == newAscPower
    {
      ascPower := newAscPower;
    }

    method SetWidth(newWidth: real)
      modifies this`width
      ensures width == newWidth
    {
      width := newWidth;
    }

    method SetHeight(newHeight: real)
      modifies this`height
      ensures height == newHeight
    {
      height := newHeight;
    }

    /** No clamping: a negative amount is stored as it is. */
    method SetFuel(newFuel: int)
      modifies this`fuel
      ensures fuel == newFuel
    {
      fuel := newFuel;
    }
  }

  /**
   * A client of the accessors: every setter is applied to one fresh entity,
   * then every getter is read back. Each getter returns what its setter
   * wrote, so no setter disturbs another field and no value is clamped.
   */
  method SettersThenGetters(t: EntityType, p: Vec3, v: Vec3, a: Vec3, s: Vec3,
                            tex: nat, spd: real, w: real, h: real, f: int)
    returns (t': EntityType, p': Vec3, v': Vec3, a': Vec3, s': Vec3,
             tex': nat, spd': real, w': real, h': real, f': int)
    ensures t' == t && p' == p && v' == v && a' == a && s' == s
    ensures tex' == tex && spd' == spd && w' == w && h' == h && f' == f
  {
    var e := new Entity();
    e.SetEntityType(t);
    e.SetPosition(p);
    e.SetVelocity(v);
    e.SetAcceleration(a);
    e.SetScale(s);
    e.SetTextureId(tex);
    e.SetSpeed(spd);
    e.SetWidth(w);
    e.SetHeight(h);
    e.SetFuel(f);
    t', p', v', a', s' := e.GetEntityType(), e.GetPosition(), e.GetVelocity(), e.GetAcceleration(), e.GetScale();
    tex', spd', w', h', f' := e.GetTextureId(), e.GetSpeed(), e.GetWidth(), e.GetHeight(), e.GetFuel();
  }
}
