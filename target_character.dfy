/**
  TargetCharacter: a selector that resolves to a Character and keeps a
  one-entry cache (the last character found and its game object's instance
  id). For the variable targets the cache doubles as a memo: the variable's
  object is looked up again only when its id differs from the cached one.
*/
module TargetCharacters {
  import opened Options
  import opened Scenes

  datatype CharacterTarget = Player | Invoker | CharacterField | LocalVariable | GlobalVariable | ListVariable

  /** The cache pair `cacheInstanceID`, `cacheCharacter`. */
  datatype Cache = Cache(instanceId: int, character: Option<ObjectId>)

  /** The id the source stores for a cached character: 0 for null, else the
      id of the character's game object. */
  function CacheId(c: Option<ObjectId>): (id: int)
    ensures id == 0 <==> c == None
  {
    match c
    case None => 0
    case Some(o) => o
  }

  /** A cache whose id is the one the source would store for its character. */
  predicate Coherent(cache: Cache)
  {
    cache.instanceId == CacheId(cache.character)
  }

  /** The variable branches: re-resolve only for a non-null object whose id
      differs from the cached id. */
  function FromVariable(s: Scene, value: Option<ObjectId>, cache: Cache): Option<ObjectId>
  {
    match value
    case Some(o) => if o != cache.instanceId then CharacterInChildren(s, o) else cache.character
    case None => cache.character
  }

  /** The character the switch of GetCharacter leaves in `cacheCharacter`. */
  function Resolve(target: CharacterTarget, field: Option<ObjectId>, s: Scene, invoker: Option<ObjectId>,
                   cache: Cache): Option<ObjectId>
    requires target == Invoker ==> invoker.Some?
  {
    match target
    case Player => if s.playerHook.Some? then s.playerCharacter else cache.character
    case Invoker => CharacterInChildren(s, invoker.value)
    case CharacterField => if field.Some? then field else cache.character
    case LocalVariable => FromVariable(s, s.localValue, cache)
    case GlobalVariable => FromVariable(s, s.globalValue, cache)
    case ListVariable => FromVariable(s, s.listValue, cache)
  }

  /** The whole cache after GetCharacter: the resolved character and its id. */
  function Refresh(target: CharacterTarget, field: Option<ObjectId>, s: Scene, invoker: Option<ObjectId>,
                   cache: Cache): (r: Cache)
    requires target == Invoker ==> invoker.Some?
    ensures Coherent(r)
    ensures r.instanceId == 0 <==> r.character == None
  {
    var c := Resolve(target, field, s, invoker, cache);
    Cache(CacheId(c), c)
  }

  /** With the Character target, a set field always wins; an unset field keeps
      whatever was cached before. */
  lemma FieldTargetUsesFieldOrCache(field: Option<ObjectId>, s: Scene, invoker: Option<ObjectId>, cache: Cache)
    ensures field.Some? ==> Refresh(CharacterField, field, s, invoker, cache).character == field
    ensures field.None? ==> Refresh(CharacterField, field, s, invoker, cache).character == cache.character
  {
  }

  /** Without a player hook the Player target keeps the previous cache. */
  lemma PlayerWithoutHookKeepsCache(field: Option<ObjectId>, s: Scene, invoker: Option<ObjectId>, cache: Cache)
    requires s.playerHook == None && Coherent(cache)
    ensures Refresh(Player, field, s, invoker, cache) == cache
  {
  }

  /** The variable value a variable target reads. */
  function VariableValue(target: CharacterTarget, s: Scene): Option<ObjectId>
    requires target == LocalVariable || target == GlobalVariable || target == ListVariable
  {
    match target
    case LocalVariable => s.localValue
    case GlobalVariable => s.globalValue
    case ListVariable => s.listValue
  }

  /** For a variable target, the character is looked up from the variable's
      object exactly when that object is non-null and its id differs from the
      cached id; in every other case a coherent cache is returned as it was. */
  lemma VariableReresolvesOnlyOnNewId(target: CharacterTarget, field: Option<ObjectId>, s: Scene,
                                      invoker: Option<ObjectId>, cache: Cache)
    requires target == LocalVariable || target == GlobalVariable || target == ListVariable
    requires Coherent(cache)
    ensures var v := VariableValue(target, s);
            && (v.Some? && v.value != cache.instanceId ==>
                  Refresh(target, field, s, invoker, cache).character == CharacterInChildren(s, v.value))
            && (v.None? || v.value == cache.instanceId ==> Refresh(target, field, s, invoker, cache) == cache)
  {
  }

  /** Asking twice in the same scene gives the same character: the second
      call hits the cache or resolves to the same answer. */
  lemma {:induction false} RefreshIsIdempotent(target: CharacterTarget, field: Option<ObjectId>, s: Scene,
                                               invoker: Option<ObjectId>, cache: Cache)
    requires target == Invoker ==> invoker.Some?
    requires Coherent(cache)
    ensures var once := Refresh(target, field, s, invoker, cache);
            Refresh(target, field, s, invoker, once) == once
  {
    var once := Refresh(target, field, s, invoker, cache);
    match target
    case LocalVariable =>
      VariableIdempotent(s, s.localValue, cache);
    case GlobalVariable =>
      VariableIdempotent(s, s.globalValue, cache);
    case ListVariable =>
      VariableIdempotent(s, s.listValue, cache);
    case _ =>
  }

  lemma VariableIdempotent(s: Scene, value: Option<ObjectId>, cache: Cache)
    requires Coherent(cache)
    ensures var c := FromVariable(s, value, cache);
            FromVariable(s, value, Cache(CacheId(c), c)) == c
  {
  }

  class TargetCharacter {
    var target: CharacterTarget
    /** The inspector field `character`. */
    var character: Option<ObjectId>
    var local: VariableRef
    var global: VariableRef
    var list: VariableRef
    var cacheInstanceID: int
    var cacheCharacter: Option<ObjectId>

    function CurrentCache(): Cache
      reads this
    {
      Cache(cacheInstanceID, cacheCharacter)
    }

    constructor (target: CharacterTarget, local: VariableRef, global: VariableRef, list: VariableRef)
      ensures this.target == target && character == None
      ensures this.local == local && this.global == global && this.list == list
      ensures cacheInstanceID == 0 && cacheCharacter == None && Coherent(CurrentCache())
    {
      this.target := target;
      character := None;
      this.local := local;
      this.global := global;
      this.list := list;
      cacheInstanceID := 0;
      cacheCharacter := None;
    }

    /** GetCharacter(invoker): run the switch, store the id of what was found
        (0 for null) and return the cached character. */
    method GetCharacter(s: Scene, invoker: Option<ObjectId>) returns (result: Option<ObjectId>)
      requires target == Invoker ==> invoker.Some?
      modifies this
      ensures target == old(target) && character == old(character)
      ensures CurrentCache() == Refresh(target, character, s, invoker, old(CurrentCache()))
      ensures result == cacheCharacter && (cacheInstanceID == 0 <==> cacheCharacter == None)
      ensures local == old(local) && global == old(global) && list == old(list)
    {
      match target {
        case Player =>
          if s.playerHook.Some? {
            cacheCharacter := s.playerCharacter;
          }
        case Invoker =>
          cacheCharacter := CharacterInChildren(s, invoker.value);
        case CharacterField =>
          if character.Some? {
            cacheCharacter := character;
          }
        case LocalVariable =>
          var localResult := s.localValue;
          if localResult.Some? && localResult.value != cacheInstanceID {
            cacheCharacter := CharacterInChildren(s, localResult.value);
          }
        case GlobalVariable =>
          var globalResult := s.globalValue;
          if globalResult.Some? && globalResult.value != cacheInstanceID {
            cacheCharacter := CharacterInChildren(s, globalResult.value);
          }
        case ListVariable =>
          var listResult := s.listValue;
          if listResult.Some? && listResult.value != cacheInstanceID {
            cacheCharacter := CharacterInChildren(s, listResult.value);
          }
      }
      cacheInstanceID := if cacheCharacter == None then 0 else cacheCharacter.value;
      result := cacheCharacter;
    }

    /** ToString: the target's fixed name, the field's object name or
        "(none)", or the variable helper's own text. */
    function ToString(s: Scene): (r: string)
      reads this
      ensures target == Player ==> r == "Player"
      ensures target == Invoker ==> r == "Invoker"
      ensures target == CharacterField && character == None ==> r == "(none)"
      ensures target == CharacterField && character.Some? ==> r == Name(s, character.value)
      ensures target == LocalVariable ==> r == local.display
      ensures target == GlobalVariable ==> r == global.display
      ensures target == ListVariable ==> r == list.display
    {
      match target
      case Player => "Player"
      case Invoker => "Invoker"
      case CharacterField => if character == None then "(none)" else Name(s, character.value)
      case LocalVariable => local.display
      case GlobalVariable => global.display
      case ListVariable => list.display
    }
  }
}
