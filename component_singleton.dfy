/**
 * OmiyaGames.Global.ComponentSingleton<T> (Runtime/ComponentSingleton.cs): a
 * lazily created, hidden, inactive holder of one component of type T, which
 * can be released and re-created. The C# static slot `instance` of each
 * closed generic type becomes the field of one object per type name.
 */
module ComponentSingletonRuntime {
  import opened Engine

  class ComponentSingleton {
    /** The identity of T, the type of the component it holds. */
    const typeName: TypeName
    /** typeof(T).Name, the short name the holder is given (not unique across namespaces). */
    const shortName: string
    /** The static slot `instance`. */
    var instance: Component?
    /** How many holders `Instance` has created so far. */
    ghost var created: nat

    constructor (typeName: TypeName, shortName: string)
      ensures this.typeName == typeName && this.shortName == shortName
      ensures instance == null && created == 0
    {
      this.typeName := typeName;
      this.shortName := shortName;
      instance := null;
      created := 0;
    }

    /** A holder as `Instance` creates it: a T on an object named after T, hidden, unsaved and inactive. */
    ghost predicate IsFreshHolder(c: Component)
      reads c.gameObject
    {
      && c.typeName == typeName
      && c.gameObject.name == shortName
      && c.gameObject.hideFlags == HideAndDontSave
      && !c.gameObject.active
      && !c.gameObject.persistent
      && !c.gameObject.destroyed
    }

    /**
     * The `Instance` getter: never null; the component in the slot if there
     * is one, otherwise a new component on a new holder, stored in the slot.
     */
    method Instance() returns (r: Component)
      modifies this`instance, this`created
      ensures instance == r
      ensures old(instance) != null ==> r == old(instance) && created == old(created)
      ensures old(instance) == null ==>
        fresh(r) && fresh(r.gameObject) && IsFreshHolder(r) && created == old(created) + 1
    {
      if instance == null {
        var go := new GameObject(shortName);
        go.hideFlags := HideAndDontSave;
        go.SetActive(false);
        instance := new Component(go, typeName);
        created := created + 1;
      }
      r := instance;
    }

    /** Release: destroy the holder of the component in the slot, if any, and empty the slot. */
    method Release()
      modifies this`instance, (if instance != null then {instance.gameObject} else {})`destroyed
      ensures instance == null
      ensures old(instance) != null ==> old(instance).gameObject.destroyed
      ensures old(instance) == null ==> unchanged(this)
      ensures created == old(created)
    {
      if instance != null {
        Destroy(instance.gameObject);
        instance := null;
      }
    }
  }

  /** Accessing `Instance` twice with no Release between creates at most one holder and returns it both times. */
  method InstanceIsStable(slot: ComponentSingleton) returns (first: Component, second: Component)
    modifies slot`instance, slot`created
    ensures first == second == slot.instance
    ensures slot.created <= old(slot.created) + 1
  {
    first := slot.Instance();
    second := slot.Instance();
  }

  /** Release is idempotent: a second Release finds the slot empty and touches nothing. */
  method ReleaseIsIdempotent(slot: ComponentSingleton)
    modifies slot`instance, (if slot.instance != null then {slot.instance.gameObject} else {})`destroyed
    ensures slot.instance == null
    ensures old(slot.instance) != null ==> old(slot.instance).gameObject.destroyed
  {
    slot.Release();
    slot.Release();
  }

  /** After Release, `Instance` creates a new component rather than handing back the released one. */
  method ReleaseThenInstanceIsFresh(slot: ComponentSingleton) returns (before: Component, after: Component)
    modifies slot`instance, slot`created, (if slot.instance != null then {slot.instance.gameObject} else {})`destroyed
    ensures fresh(after) && after != before && before.gameObject.destroyed
    ensures slot.IsFreshHolder(after) && slot.instance == after
  {
    before := slot.Instance();
    slot.Release();
    after := slot.Instance();
  }
}
