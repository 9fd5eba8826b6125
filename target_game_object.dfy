/**
  TargetGameObject: a selector that names a game object (the player, the
  camera, the invoker, an inspector field or a variable), the null-guarded
  getters built on it, and its display name. Nothing here writes state.
*/
module TargetGameObjects {
  import opened Options
  import opened Scenes

  datatype ObjectTarget = Player | Camera | Invoker | GameObjectField | LocalVariable | ListVariable | GlobalVariable

  datatype TargetGameObject = TargetGameObject(
    target: ObjectTarget,
    /** The inspector field `gameObject`. */
    gameObject: Option<ObjectId>,
    global: VariableRef,
    local: VariableRef,
    list: VariableRef)

  /** GetGameObject(invoker): the object the target selects, None for null. */
  function GetGameObject(t: TargetGameObject, s: Scene, invoker: Option<ObjectId>): (r: Option<ObjectId>)
    ensures t.target == Invoker ==> r == invoker
    ensures t.target == GameObjectField ==> r == t.gameObject
    ensures t.target == Player && s.playerHook == None ==> r == None
    ensures t.target == Camera && s.cameraHook == None ==> r == None
  {
    match t.target
    case Player => s.playerHook
    case Camera => s.cameraHook
    case Invoker => invoker
    case GameObjectField => t.gameObject
    case ListVariable => s.listValue
    case LocalVariable => s.localValue
    case GlobalVariable => s.globalValue
  }

  /** GetTransform: a game object and its transform are one and the same
      reference here, so the transform is named by the object's id. */
  function GetTransform(t: TargetGameObject, s: Scene, invoker: Option<ObjectId>): (r: Option<ObjectId>)
    ensures r == None <==> GetGameObject(t, s, invoker) == None
  {
    GetGameObject(t, s, invoker)
  }

  /** GetComponent<T> and GetComponent(type): `component` is the engine's
      lookup on the resolved object. */
  function GetComponent<C>(t: TargetGameObject, s: Scene, invoker: Option<ObjectId>,
                           component: ObjectId -> Option<C>): (r: Option<C>)
    ensures GetGameObject(t, s, invoker) == None ==> r == None
    ensures forall o :: GetGameObject(t, s, invoker) == Some(o) ==> r == component(o)
  {
    var go := GetGameObject(t, s, invoker);
    if go == None then None else component(go.value)
  }

  /** GetComponentInChildren<T>: the same guard, with the engine's lookup in
      the object's hierarchy. */
  function GetComponentInChildren<C>(t: TargetGameObject, s: Scene, invoker: Option<ObjectId>,
                                     inChildren: ObjectId -> Option<C>): (r: Option<C>)
    ensures GetGameObject(t, s, invoker) == None ==> r == None
    ensures forall o :: GetGameObject(t, s, invoker) == Some(o) ==> r == inChildren(o)
  {
    GetComponent(t, s, invoker, inChildren)
  }

  /** GetComponentsInChildren<T>: an empty array, never null, when nothing
      resolves. */
  function GetComponentsInChildren<C>(t: TargetGameObject, s: Scene, invoker: Option<ObjectId>,
                                      allInChildren: ObjectId -> seq<C>): (r: seq<C>)
    ensures GetGameObject(t, s, invoker) == None ==> r == []
    ensures forall o :: GetGameObject(t, s, invoker) == Some(o) ==> r == allInChildren(o)
  {
    var go := GetGameObject(t, s, invoker);
    if go == None then [] else allInChildren(go.value)
  }

  const LocalPrefix: string := "local["
  const GlobalPrefix: string := "global["

  /** ToString: fixed names for the hooks and the invoker, the field's object
      name or "(null)", and `local[name]` / `global[name]` for the named
      variables. */
  function ToString(t: TargetGameObject, s: Scene): (r: string)
    ensures t.target == Player ==> r == "Player"
    ensures t.target == Invoker ==> r == "Invoker"
    ensures t.target == Camera ==> r == "Camera"
    ensures t.target == GameObjectField ==> r == (if t.gameObject == None then "(null)" else Name(s, t.gameObject.value))
    ensures t.target == ListVariable ==> r == t.list.display
  {
    match t.target
    case Player => "Player"
    case Invoker => "Invoker"
    case Camera => "Camera"
    case GameObjectField => if t.gameObject != None then Name(s, t.gameObject.value) else "(null)"
    case LocalVariable => LocalPrefix + t.local.name + "]"
    case ListVariable => t.list.display
    case GlobalVariable => GlobalPrefix + t.global.name + "]"
  }

  /** The name of a local variable target is framed by `local[` and `]` and
      can be read back from the text. */
  lemma LocalNameReadsBack(t: TargetGameObject, s: Scene)
    requires t.target == LocalVariable
    ensures var r := ToString(t, s);
            && |r| == |t.local.name| + 7
            && r[..6] == "local[" && r[|r| - 1] == ']'
            && r[6..|r| - 1] == t.local.name
  {
    var r := ToString(t, s);
    assert r == LocalPrefix + t.local.name + "]";
    assert r[..6] == LocalPrefix;
    assert r[6..|r| - 1] == t.local.name;
  }

  /** The same for a global variable target, framed by `global[` and `]`. */
  lemma GlobalNameReadsBack(t: TargetGameObject, s: Scene)
    requires t.target == GlobalVariable
    ensures var r := ToString(t, s);
            && |r| == |t.global.name| + 8
            && r[..7] == "global[" && r[|r| - 1] == ']'
            && r[7..|r| - 1] == t.global.name
  {
    var r := ToString(t, s);
    assert r == GlobalPrefix + t.global.name + "]";
    assert r[..7] == GlobalPrefix;
    assert r[7..|r| - 1] == t.global.name;
  }

  /** Two local variable targets print alike only when they name the same
      variable; a local and a global target never print alike. */
  lemma VariableNamesAreDistinguished(a: TargetGameObject, b: TargetGameObject, s: Scene)
    requires a.target == LocalVariable
    ensures b.target == LocalVariable ==> (ToString(a, s) == ToString(b, s) <==> a.local.name == b.local.name)
    ensures b.target == GlobalVariable ==> ToString(a, s) != ToString(b, s)
  {
    LocalNameReadsBack(a, s);
    if b.target == LocalVariable {
      LocalNameReadsBack(b, s);
    } else if b.target == GlobalVariable {
      GlobalNameReadsBack(b, s);
      assert ToString(a, s)[0] == 'l' && ToString(b, s)[0] == 'g';
    }
  }
}
