/**
 * What a bullet does when it touches a collider: capture zones and its own
 * shooter are passed through, a tank stops it (and is damaged unless it shares
 * the shooter's tag), a collider on an obstacle layer stops it, anything else
 * is passed through.
 */
module Bullets {
  import opened Wrappers
  import opened Health

  /** A physics layer index. */
  type Layer = l: int | 0 <= l < 32

  /** The part of a touched collider the bullet looks at: the identity of its
      game object, its layer and its tag. */
  datatype Contact = Contact(objectId: nat, layer: Layer, tag: string)

  /** The branch of `OnTriggerEnter2D` that handled a contact. */
  datatype Outcome =
    | CrossesCaptureZone
    | IgnoresShooter
    | HitsTank(damages: bool)
    | HitsObstacle
    | PassesThrough

  /** Whether the bullet destroys itself on this outcome. */
  predicate StopsBullet(o: Outcome) {
    o.HitsTank? || o.HitsObstacle?
  }

  /** `1 << layer`, the single-layer mask. */
  function LayerBit(layer: Layer): bv32 {
    (1 as bv32) << layer
  }

  /** Whether a layer mask has a given layer ticked: the obstacle step's test
      `(mask & (1 << layer)) != 0`. */
  predicate InMask(mask: bv32, layer: Layer) {
    (mask & LayerBit(layer)) != 0
  }

  /**
   * The ordered chain of `OnTriggerEnter2D`. `captureZoneLayerIndex` is the
   * layer of capture zones (-1 when no such layer exists), `shooter` the
   * shooter's object (`None` once destroyed) and `hasHealth` whether the
   * touched collider carries a `TankHealth`.
   */
  function Resolve(captureZoneLayerIndex: int, obstacleLayers: bv32, shooter: Option<nat>,
                   shooterTag: string, other: Contact, hasHealth: bool): (o: Outcome)
    ensures o.CrossesCaptureZone? <==> captureZoneLayerIndex != -1 && other.layer == captureZoneLayerIndex
    ensures o.HitsTank? ==> hasHealth && (o.damages <==> other.tag != shooterTag)
    ensures o.IgnoresShooter? || o.HitsTank? || o.HitsObstacle? ==> other.layer != captureZoneLayerIndex
    ensures StopsBullet(o) ==> shooter != Some(other.objectId)
    ensures o.HitsObstacle? ==> !hasHealth && InMask(obstacleLayers, other.layer)
    ensures o.PassesThrough? <==>
      (captureZoneLayerIndex == -1 || other.layer != captureZoneLayerIndex) &&
      shooter != Some(other.objectId) && !hasHealth && !InMask(obstacleLayers, other.layer)
  {
    if captureZoneLayerIndex != -1 && other.layer == captureZoneLayerIndex then CrossesCaptureZone
    else if shooter == Some(other.objectId) then IgnoresShooter
    else if hasHealth then HitsTank(other.tag != shooterTag)
    else if InMask(obstacleLayers, other.layer) then HitsObstacle
    else PassesThrough
  }

  /** No friendly fire: a bullet never damages a collider carrying its
      shooter's tag, nor its shooter, nor anything touched inside a capture
      zone layer. */
  lemma NoFriendlyFire(captureZoneLayerIndex: int, obstacleLayers: bv32, shooter: Option<nat>,
                       shooterTag: string, other: Contact, hasHealth: bool)
    requires other.tag == shooterTag || shooter == Some(other.objectId) ||
             (captureZoneLayerIndex != -1 && other.layer == captureZoneLayerIndex)
    ensures Resolve(captureZoneLayerIndex, obstacleLayers, shooter, shooterTag, other, hasHealth) != HitsTank(true)
  {
  }

  /** An opposing tank outside the capture zone layer is always damaged and
      always stops the bullet, whatever the obstacle mask says. */
  lemma OpposingTankIsHit(captureZoneLayerIndex: int, obstacleLayers: bv32, shooter: Option<nat>,
                          shooterTag: string, other: Contact)
    requires other.tag != shooterTag && shooter != Some(other.objectId) && other.layer != captureZoneLayerIndex
    ensures Resolve(captureZoneLayerIndex, obstacleLayers, shooter, shooterTag, other, true) == HitsTank(true)
  {
  }

  /** `BulletDestruction`. `destroyed` records that the bullet asked for its
      own destruction. */
  class Bullet {
    const damage: real
    const obstacleLayers: bv32
    var shooter: Option<nat>
    var shooterTag: string
    var captureZoneLayerIndex: int
    var destroyed: bool

    /** The shot (which sets shooter and tag) followed by `Awake`, which looks
        up the capture zone layer: `captureZonesLayer` is that lookup's result. */
    constructor (damage: real, obstacleLayers: bv32, shooter: Option<nat>, shooterTag: string,
                 captureZonesLayer: int)
      ensures this.damage == damage && this.obstacleLayers == obstacleLayers
      ensures this.shooter == shooter && this.shooterTag == shooterTag
      ensures captureZoneLayerIndex == captureZonesLayer && !destroyed
    {
      this.damage := damage;
      this.obstacleLayers := obstacleLayers;
      this.shooter := shooter;
      this.shooterTag := shooterTag;
      captureZoneLayerIndex := captureZonesLayer;
      destroyed := false;
    }

    /** `OnTriggerEnter2D`: handles the contact as `Resolve` says, damaging the
        touched tank (`targetHealth`, null when the collider has none) on an
        opposing hit. */
    method OnTriggerEnter2D(other: Contact, targetHealth: TankHealth?)
      modifies this, targetHealth
      ensures var o := Resolve(captureZoneLayerIndex, obstacleLayers, shooter, shooterTag, other, targetHealth != null);
        destroyed == (old(destroyed) || StopsBullet(o)) &&
        (o == HitsTank(true) ==>
           targetHealth.currentHealth == Damaged(old(targetHealth.currentHealth), damage) &&
           targetHealth.destroyed == (old(targetHealth.destroyed) || Kills(old(targetHealth.currentHealth), damage))) &&
        (o != HitsTank(true) && targetHealth != null ==>
           targetHealth.currentHealth == old(targetHealth.currentHealth) &&
           targetHealth.destroyed == old(targetHealth.destroyed))
      ensures shooter == old(shooter) && shooterTag == old(shooterTag) && captureZoneLayerIndex == old(captureZoneLayerIndex)
    {
      if captureZoneLayerIndex != -1 && other.layer == captureZoneLayerIndex {
        return;
      }
      if shooter == Some(other.objectId) {
        return;
      }
      if targetHealth != null {
        if other.tag != shooterTag {
          targetHealth.TakeDamage(damage);
        }
        destroyed := true;
        return;
      }
      if InMask(obstacleLayers, other.layer) {
        destroyed := true;
        return;
      }
    }
  }
}
