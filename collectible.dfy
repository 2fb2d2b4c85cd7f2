/**
 * `Collectible`: an item collected once, by a trigger or a particle hit
 * from an object with the collector tag. Collecting signals the start,
 * plays the effect and the sound, signals the collection, and then either
 * deactivates the item, destroys it, or disables its colliders and
 * destroys it after a delay.
 *
 * Signals and playbacks are recorded in order in `log`; an event with no
 * listeners makes its signal a no-op, which the log does not distinguish.
 */
module Collecting {

  /** One observable step of a collection. */
  datatype Step = Started | EffectPlayed | SoundPlayed | Collected | Finished

  /** The item's game object. */
  datatype Life = Active | Inactive | Destroyed

  /** A collider attached to the item. */
  datatype ColliderState = ColliderState(isTrigger: bool, enabled: bool)

  class Collectible {
    const collectorTag: string
    const destroyOnCollect: bool
    const useParticleCollision: bool
    const useTriggerCollision: bool
    const destroyDelay: real
    /** Whether `collectEffect` and `collectSound` are set. */
    const hasEffect: bool
    const hasSound: bool
    /** Whether the game object carries a `ParticleSystem`. */
    const hasParticleSystem: bool

    /** `isCollected` */
    var isCollected: bool
    /** `_colliders`: null until `Awake` runs with trigger collision on. */
    var colliders: array?<ColliderState>
    /** Whether `Awake` switched on collision messages of the particle system. */
    var particleMessages: bool
    /** Whether `DestroyAfterDelay` is waiting. */
    var pendingDestroy: bool
    var life: Life
    var log: seq<Step>

    constructor (collectorTag: string, destroyOnCollect: bool, useParticleCollision: bool, useTriggerCollision: bool,
                 destroyDelay: real, hasEffect: bool, hasSound: bool, hasParticleSystem: bool)
      ensures this.collectorTag == collectorTag && this.destroyOnCollect == destroyOnCollect
      ensures this.useParticleCollision == useParticleCollision && this.useTriggerCollision == useTriggerCollision
      ensures this.destroyDelay == destroyDelay && this.hasEffect == hasEffect && this.hasSound == hasSound
      ensures this.hasParticleSystem == hasParticleSystem
      ensures !isCollected && colliders == null && !particleMessages && !pendingDestroy
      ensures life == Active && log == []
    {
      this.collectorTag := collectorTag;
      this.destroyOnCollect := destroyOnCollect;
      this.useParticleCollision := useParticleCollision;
      this.useTriggerCollision := useTriggerCollision;
      this.destroyDelay := destroyDelay;
      this.hasEffect := hasEffect;
      this.hasSound := hasSound;
      this.hasParticleSystem := hasParticleSystem;
      isCollected := false;
      colliders := null;
      particleMessages := false;
      pendingDestroy := false;
      life := Active;
      log := [];
    }

    /** The steps every collection takes before it finishes. */
    function Opening(): (s: seq<Step>)
      ensures |s| >= 2 && s[0] == Started && s[|s| - 1] == Collected
      ensures EffectPlayed in s <==> hasEffect
      ensures SoundPlayed in s <==> hasSound
      ensures Finished !in s
    {
      [Started] + (if hasEffect then [EffectPlayed] else []) + (if hasSound then [SoundPlayed] else []) + [Collected]
    }

    /**
     * `Awake`, given the colliders `GetComponents<Collider>` returns: with
     * particle collision on and a particle system present its collision
     * messages are switched on; with trigger collision on the colliders are
     * kept and each is made a trigger.
     */
    method Awake(attached: seq<ColliderState>)
      modifies this`colliders, this`particleMessages
      ensures particleMessages == (old(particleMessages) || (useParticleCollision && hasParticleSystem))
      ensures !useTriggerCollision ==> colliders == old(colliders)
      ensures useTriggerCollision ==>
                colliders != null && fresh(colliders) && colliders.Length == |attached| &&
                forall k :: 0 <= k < |attached| ==> colliders[k] == attached[k].(isTrigger := true)
    {
      if useParticleCollision && hasParticleSystem {
        particleMessages := true;
      }
      if useTriggerCollision {
        var found := new ColliderState[|attached|](k requires 0 <= k < |attached| => attached[k]);
        colliders := found;
        for i := 0 to found.Length
          invariant colliders == found && particleMessages == (old(particleMessages) || (useParticleCollision && hasParticleSystem))
          invariant forall k :: 0 <= k < i ==> found[k] == attached[k].(isTrigger := true)
          invariant forall k :: i <= k < found.Length ==> found[k] == attached[k]
        {
          found[i] := found[i].(isTrigger := true);
        }
      }
    }

    /** `OnTriggerEnter`: an uncollected item touched by a collector is collected when trigger collision is on. */
    method OnTriggerEnter(otherTag: string) returns (thrown: bool)
      modifies this`isCollected, this`log, this`life, this`pendingDestroy, colliders
      ensures if useTriggerCollision && !old(isCollected) && otherTag == collectorTag
              then Collection(thrown) else Ignored(thrown)
    {
      thrown := false;
      if !useTriggerCollision || isCollected {
        return;
      }
      if otherTag == collectorTag {
        thrown := Collect();
      }
    }

    /** `OnParticleCollision`: the same as a trigger, when particle collision is on. */
    method OnParticleCollision(otherTag: string) returns (thrown: bool)
      modifies this`isCollected, this`log, this`life, this`pendingDestroy, colliders
      ensures if useParticleCollision && !old(isCollected) && otherTag == collectorTag
              then Collection(thrown) else Ignored(thrown)
    {
      thrown := false;
      if !useParticleCollision || isCollected {
        return;
      }
      if otherTag == collectorTag {
        thrown := Collect();
      }
    }

    /** A collision that leaves the item as it was. */
    twostate predicate Ignored(thrown: bool)
      reads this, colliders
    {
      && !thrown && isCollected == old(isCollected) && log == old(log) && life == old(life)
      && pendingDestroy == old(pendingDestroy) && colliders == old(colliders)
      && particleMessages == old(particleMessages)
      && (colliders != null ==> unchanged(colliders))
    }

    /**
     * What `Collect` does. A second collection does nothing. The first marks
     * the item collected, runs the opening steps, and then: without
     * destruction it finishes and deactivates the item; with destruction
     * and no delay it finishes and destroys the item; with a delay it
     * disables every collider and leaves the finish to `DestroyAfterDelay`,
     * and throws instead when `Awake` kept no colliders.
     */
    twostate predicate Collection(thrown: bool)
      reads this, colliders
    {
      && isCollected && colliders == old(colliders) && particleMessages == old(particleMessages)
      && (old(isCollected) ==>
            !thrown && log == old(log) && life == old(life) && pendingDestroy == old(pendingDestroy))
      && (!old(isCollected) && !destroyOnCollect ==>
            !thrown && log == old(log) + Opening() + [Finished] && life == Inactive &&
            pendingDestroy == old(pendingDestroy))
      && (!old(isCollected) && destroyOnCollect && destroyDelay <= 0.0 ==>
            !thrown && log == old(log) + Opening() + [Finished] && life == Destroyed &&
            pendingDestroy == old(pendingDestroy))
      && (!old(isCollected) && destroyOnCollect && destroyDelay > 0.0 ==>
            log == old(log) + Opening() && life == old(life) &&
            thrown == (colliders == null) &&
            pendingDestroy == (old(pendingDestroy) || colliders != null))
      && (colliders != null ==>
            if !old(isCollected) && destroyOnCollect && destroyDelay > 0.0
            then forall k :: 0 <= k < colliders.Length ==> colliders[k] == old(colliders[k]).(enabled := false)
            else unchanged(colliders))
    }

    /** `Collect` */
    method Collect() returns (thrown: bool)
      modifies this`isCollected, this`log, this`life, this`pendingDestroy, colliders
      ensures Collection(thrown)
    {
      thrown := false;
      if isCollected {
        return;
      }
      isCollected := true;
      Open();
      if destroyOnCollect {
        if destroyDelay > 0.0 {
          if colliders == null {
            return true;
          }
          DisableAll(colliders);
          pendingDestroy := true;
        } else {
          log := log + [Finished];
          life := Destroyed;
        }
      } else {
        log := log + [Finished];
        life := Inactive;
      }
    }

    /** The opening steps of `Collect`: the start signal, the effect and the sound when set, the collection signal. */
    method Open()
      modifies this`log
      ensures log == old(log) + Opening()
    {
      log := log + [Started];
      if hasEffect {
        log := log + [EffectPlayed];
      }
      if hasSound {
        log := log + [SoundPlayed];
      }
      log := log + [Collected];
    }

    /** The loop of `Collect` that disables each collider. */
    static method DisableAll(found: array<ColliderState>)
      modifies found
      ensures forall k :: 0 <= k < found.Length ==> found[k] == old(found[k]).(enabled := false)
    {
      for i := 0 to found.Length
        invariant forall k :: 0 <= k < i ==> found[k] == old(found[k]).(enabled := false)
        invariant forall k :: i <= k < found.Length ==> found[k] == old(found[k])
      {
        found[i] := found[i].(enabled := false);
      }
    }

    /** `DestroyAfterDelay` once its wait is over: the collection finishes and the item is destroyed. */
    method DestroyAfterDelay()
      requires pendingDestroy
      modifies this`pendingDestroy, this`log, this`life
      ensures !pendingDestroy && log == old(log) + [Finished] && life == Destroyed
    {
      pendingDestroy := false;
      log := log + [Finished];
      life := Destroyed;
    }

    /** `IsCollected` */
    method IsCollected() returns (collected: bool)
      ensures collected == isCollected
    {
      collected := isCollected;
    }
  }
}
