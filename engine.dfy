/**
 * The few Unity engine objects that the Omiya Games global package touches,
 * reduced to the state the package reads or writes. Engine calls whose effect
 * the package only requests (DontDestroyOnLoad, Destroy) are recorded as flags
 * on the game object rather than simulated.
 */
module Engine {

  /**
   * The identity of a C# type (its `System.Type`, as used for dictionary keys
   * and `is` tests): two types are the same exactly when their TypeNames are.
   * The short display name `typeof(T).Name` is a separate string where needed.
   */
  type TypeName = string

  /** The subset of UnityEngine.HideFlags the package uses. */
  datatype HideFlags = NoHideFlags | HideAndDontSave

  /** A UnityEngine.GameObject: a named node of the scene hierarchy. */
  class GameObject {
    const name: string
    var hideFlags: HideFlags
    var active: bool
    /** Set once DontDestroyOnLoad has been requested for this object. */
    var persistent: bool
    /** Set once Destroy has been requested for this object (Unity destroys it later). */
    var destroyed: bool

    /** `new GameObject(name)`: active, visible and part of the current scene. */
    constructor (name: string)
      ensures this.name == name
      ensures hideFlags == NoHideFlags && active && !persistent && !destroyed
    {
      this.name := name;
      hideFlags := NoHideFlags;
      active := true;
      persistent := false;
      destroyed := false;
    }

    /** `GameObject.SetActive(value)`. */
    method SetActive(value: bool)
      modifies this`active
      ensures active == value
    {
      active := value;
    }
  }

  /** A UnityEngine.Component of type `typeName`, attached to `gameObject`. */
  class Component {
    const typeName: TypeName
    const gameObject: GameObject

    /** `gameObject.AddComponent<T>()` for the type named `typeName`. */
    constructor (gameObject: GameObject, typeName: TypeName)
      ensures this.gameObject == gameObject && this.typeName == typeName
    {
      this.gameObject := gameObject;
      this.typeName := typeName;
    }
  }

  /** `Object.DontDestroyOnLoad(gameObject)`: keep the object across scene loads. */
  method DontDestroyOnLoad(gameObject: GameObject)
    modifies gameObject`persistent
    ensures gameObject.persistent
  {
    gameObject.persistent := true;
  }

  /** `Object.Destroy(gameObject)`: request that the object be destroyed. */
  method Destroy(gameObject: GameObject)
    modifies gameObject`destroyed
    ensures gameObject.destroyed
  {
    gameObject.destroyed := true;
  }

  /** A C# class: its name and the names of every class it derives from. */
  datatype ClassType = ClassType(name: TypeName, bases: set<TypeName>) {
    /** `obj is T`, for an object whose class is this one. */
    predicate IsA(t: TypeName) {
      t == name || t in bases
    }
  }

  /** A UnityEngine.ScriptableObject created by `ScriptableObject.CreateInstance<T>()`. */
  class ScriptableObject {
    const classType: ClassType

    constructor (classType: ClassType)
      ensures this.classType == classType
    {
      this.classType := classType;
    }
  }
}
