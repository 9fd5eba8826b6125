/**
  The scene as seen by the target selectors: game objects are known by their
  instance id (never 0 in Unity), a Character component is known by the id
  of the game object it sits on, and the engine lookups the selectors call
  (the player and camera hooks, GetComponentInChildren, the variable
  helpers) are answers recorded in a `Scene` value.
*/
module Scenes {
  import opened Options

  /** GameObject.GetInstanceID(): never 0. */
  type ObjectId = i: int | i != 0 witness 1

  /** A reference to one of the variable helpers (HelperLocalVariable,
      HelperGlobalVariable, HelperGetListVariable): the variable's name and
      the text its own ToString produces, which is not part of this model. */
  datatype VariableRef = VariableRef(name: string, display: string)

  /** The engine answers one selector call sees. */
  datatype Scene = Scene(
    /** HookPlayer.Instance's game object, None without a player hook. */
    playerHook: Option<ObjectId>,
    /** The Character component on the player hook (`HookPlayer.Instance.Get<Character>()`). */
    playerCharacter: Option<ObjectId>,
    /** HookCamera.Instance's game object, None without a camera hook. */
    cameraHook: Option<ObjectId>,
    /** GetComponentInChildren<Character>() for each object that has one. */
    characterInChildren: map<ObjectId, ObjectId>,
    /** What the local, global and list variable helpers yield, cast to a game
        object (None when the value is null or not a game object). */
    localValue: Option<ObjectId>,
    globalValue: Option<ObjectId>,
    listValue: Option<ObjectId>,
    /** GameObject.name. */
    names: map<ObjectId, string>)

  /** `o.GetComponentInChildren<Character>()`. */
  function CharacterInChildren(s: Scene, o: ObjectId): (c: Option<ObjectId>)
    ensures c.Some? <==> o in s.characterInChildren
  {
    if o in s.characterInChildren then Some(s.characterInChildren[o]) else None
  }

  /** `o.name`; an object the scene does not name has the empty name. */
  function Name(s: Scene, o: ObjectId): string
  {
    if o in s.names then s.names[o] else ""
  }
}
