/**
  ActionCharacterMount: an action that puts the selected character in or out
  of "mounted" mode. A mounted character is disabled and its locomotion
  driver stops detecting collisions; an unmounted one is the reverse.
*/
module CharacterMount {
  import opened Options
  import opened Scenes
  import opened Drivers
  import opened TargetCharacters

  /** The two parts of a Character the action writes: `enabled` and the
      driver of its locomotion. Character.cs is not part of this model. */
  class Character {
    var enabled: bool
    const driver: LocomotionDriver

    constructor (enabled: bool, driver: LocomotionDriver)
      ensures this.enabled == enabled && this.driver == driver
    {
      this.enabled := enabled;
      this.driver := driver;
    }
  }

  /** Every character a lookup in `s` can return, or the selector already
      holds, is one of `characters`. */
  ghost predicate CharactersKnown(t: TargetCharacter, s: Scene, characters: map<ObjectId, Character>)
    reads t
  {
    && (s.playerCharacter.Some? ==> s.playerCharacter.value in characters)
    && (forall o :: o in s.characterInChildren ==> s.characterInChildren[o] in characters)
    && (t.character.Some? ==> t.character.value in characters)
    && (t.cacheCharacter.Some? ==> t.cacheCharacter.value in characters)
  }

  class ActionCharacterMount {
    /** The selector, Player by default. */
    const character: TargetCharacter
    var mounted: bool

    constructor (character: TargetCharacter)
      ensures this.character == character && mounted
    {
      this.character := character;
      mounted := true;
    }

    /** InstantExecute(target): resolve the character; when one is found,
        set `enabled` and the driver's collision detection to `!mounted`.
        The action always completes at once. */
    method InstantExecute(s: Scene, target: Option<ObjectId>, characters: map<ObjectId, Character>)
      returns (done: bool)
      requires character.target == Invoker ==> target.Some?
      requires CharactersKnown(character, s, characters)
      modifies character, characters.Values, set c | c in characters.Values :: c.driver
      ensures done
      ensures character.target == old(character.target) && character.character == old(character.character)
      ensures character.local == old(character.local) && character.global == old(character.global)
      ensures character.list == old(character.list)
      ensures character.CurrentCache() == Refresh(character.target, character.character, s, target,
                                                  old(character.CurrentCache()))
      ensures character.cacheCharacter == None ==>
                unchanged(characters.Values) && unchanged(set c | c in characters.Values :: c.driver)
      ensures character.cacheCharacter.Some? ==>
                var c := characters[character.cacheCharacter.value];
                && c.enabled == !mounted
                && (c.driver.kind == RigidBody ==> c.driver.rb == old(c.driver.rb).(detectCollisions := !mounted))
                && (c.driver.kind == UnityController ==> c.driver.cc == old(c.driver.cc).(detectCollisions := !mounted))
                && (c.driver.kind == RigidBody ==> c.driver.cc == old(c.driver.cc))
                && (c.driver.kind == UnityController ==> c.driver.rb == old(c.driver.rb))
                && (c.driver.kind == Generic ==> unchanged(c.driver))
                && c.driver.cd == old(c.driver.cd) && c.driver.rotation == old(c.driver.rotation)
                && c.driver.slopeLimit == old(c.driver.slopeLimit) && c.driver.position == old(c.driver.position)
                && (forall other :: other in characters.Values && other != c ==> other.enabled == old(other.enabled))
                && (forall other :: other in characters.Values && other.driver != c.driver ==> unchanged(other.driver))
      ensures mounted == old(mounted)
    {
      var found := character.GetCharacter(s, target);
      if found == None {
        return true;
      }
      var c := characters[found.value];
      var locomotionDriver := c.driver;
      c.enabled := !mounted;
      locomotionDriver.SetCollisionDetection(!mounted);
      return true;
    }
  }
}
