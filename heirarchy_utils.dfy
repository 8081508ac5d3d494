/** HeirarchyUtils: ancestor tests over the transform hierarchy.

    A transform is modelled with its whole chain of parents, so every chain
    ends at null (the scene root) and the recursion terminates; Unity never
    lets a transform become its own ancestor, and this shape makes that
    true by construction. `name` tells transforms with the same parent
    chain apart. Components and game objects reach the hierarchy through
    their `transform`.

    `UnityEngine.Transform` has an instance method `IsChildOf(Transform)` of
    its own, and in C# an instance method wins over an extension method of
    the same name. So every `x.IsChildOf(t)` on a transform, including the
    recursive call inside the extension and the calls of the other five
    overloads, runs the engine's method (`EngineIsChildOf`), which is also
    true for the transform itself. The engine declares its parameter
    not-null, so a null argument throws ArgumentNullException. The
    Transform extension is reached only through the static call syntax. */
module HeirarchyUtil {
  import opened Common

  datatype Transform = Transform(name: nat, parent: Option<Transform>)

  datatype Component = Component(transform: Transform)

  datatype GameObject = GameObject(transform: Transform)

  /** Strict ancestry: `a` is the direct parent of `t` or an ancestor of it. */
  predicate Descends(t: Transform, a: Transform)
    decreases t
  {
    t.parent == Some(a) || (t.parent.Some? && Descends(t.parent.value, a))
  }

  /** The engine's `Transform.IsChildOf(parent)` on a non-null argument: the
      transform is `parent` itself, a child or a deeper descendant. */
  predicate EngineIsChildOf(t: Transform, parent: Transform) {
    t == parent || Descends(t, parent)
  }

  /** The extension `IsChildOf(self, parent)`, called statically: the direct
      parent is `parent`, or the direct parent is not null and the engine's
      method says it is a child of `parent`. For a non-null `parent` that is
      strict ancestry; for a null one it is true at a root and otherwise the
      engine's method throws on the null argument. */
  function IsChildOf(self: Transform, parent: Option<Transform>): (r: Result<bool>)
    ensures parent.Some? ==> r == Ok(Descends(self, parent.value))
    ensures parent.None? ==> (r == Ok(true) <==> self.parent.None?)
    ensures r.Err? <==> parent.None? && self.parent.Some?
    ensures r.Err? ==> r.error == ArgumentNullError
  {
    if self.parent == parent then Ok(true)
    else if self.parent.None? then Ok(false)
    else if parent.None? then Err(ArgumentNullError)
    else Ok(EngineIsChildOf(self.parent.value, parent.value))
  }

  /** The engine's method with the argument as the source passes it. */
  function EngineIsChildOfArg(t: Transform, parent: Option<Transform>): Result<bool> {
    match parent
    case None => Err(ArgumentNullError)
    case Some(p) => Ok(EngineIsChildOf(t, p))
  }

  /** The `Component` overload: the engine's method on its transform. */
  function ComponentIsChildOf(self: Component, parent: Option<Transform>): Result<bool> {
    EngineIsChildOfArg(self.transform, parent)
  }

  /** The `GameObject` overload: the engine's method on its transform. */
  function GameObjectIsChildOf(self: GameObject, parent: Option<Transform>): Result<bool> {
    EngineIsChildOfArg(self.transform, parent)
  }

  /** `IsParentOf(self, child)`, on a transform (`self.transform` is `self`). */
  predicate IsParentOf(self: Transform, child: Transform) {
    EngineIsChildOf(child, self)
  }

  /** The `Component` overload. */
  predicate ComponentIsParentOf(self: Component, child: Transform) {
    EngineIsChildOf(child, self.transform)
  }

  /** The `GameObject` overload. */
  predicate GameObjectIsParentOf(self: GameObject, child: Transform) {
    EngineIsChildOf(child, self.transform)
  }

  /** The chain of ancestors, nearest first. */
  function Ancestors(t: Transform): (r: seq<Transform>)
    ensures t.parent.None? <==> r == []
    ensures t.parent.Some? ==> r[0] == t.parent.value
    decreases t
  {
    match t.parent
    case None => []
    case Some(p) => [p] + Ancestors(p)
  }

  // ---------------------------------------------------------------------------

  /** A transform is a child of its direct parent, under the extension. */
  lemma ChildOfDirectParent(self: Transform)
    ensures IsChildOf(self, self.parent) == Ok(true)
  {
  }

  /** Strict ancestry is exactly membership in the ancestor chain. */
  lemma {:induction false} DescendsIsAncestry(self: Transform, a: Transform)
    ensures Descends(self, a) <==> a in Ancestors(self)
    decreases self
  {
    if self.parent.Some? {
      DescendsIsAncestry(self.parent.value, a);
    }
  }

  /** The engine's method is membership in the chain that starts at the
      transform itself. */
  lemma {:induction false} EngineIsChildOfIsAncestryOrSelf(t: Transform, p: Transform)
    ensures EngineIsChildOf(t, p) <==> p in [t] + Ancestors(t)
  {
    DescendsIsAncestry(t, p);
  }

  /** Ancestors are strictly smaller, so no transform descends from itself. */
  lemma {:induction false} AncestorsAreSmaller(self: Transform, a: Transform)
    requires Descends(self, a)
    ensures a < self
    decreases self
  {
    if self.parent != Some(a) {
      AncestorsAreSmaller(self.parent.value, a);
    }
  }

  /** The extension is irreflexive, the engine's method reflexive: the two
      disagree on `(t, t)`, which is where the overloads differ from the
      extension. */
  lemma {:induction false} NotChildOfItself(self: Transform)
    ensures IsChildOf(self, Some(self)) == Ok(false)
    ensures EngineIsChildOf(self, self)
  {
    if Descends(self, self) {
      AncestorsAreSmaller(self, self);
    }
  }

  /** A descendant of a descendant of `c` descends from `c`. */
  lemma {:induction false} DescendsIsTransitive(a: Transform, b: Transform, c: Transform)
    requires Descends(a, b) && Descends(b, c)
    ensures Descends(a, c)
    decreases a
  {
    if a.parent != Some(b) {
      DescendsIsTransitive(a.parent.value, b, c);
    }
  }

  /** The engine's method is a partial order: transitive and antisymmetric. */
  lemma {:induction false} EngineIsChildOfIsPartialOrder(a: Transform, b: Transform, c: Transform)
    ensures EngineIsChildOf(a, b) && EngineIsChildOf(b, c) ==> EngineIsChildOf(a, c)
    ensures EngineIsChildOf(a, b) && EngineIsChildOf(b, a) ==> a == b
  {
    if Descends(a, b) && Descends(b, c) {
      DescendsIsTransitive(a, b, c);
    }
    if a != b && Descends(a, b) && Descends(b, a) {
      AncestorsAreSmaller(a, b);
      AncestorsAreSmaller(b, a);
    }
  }

  /** Every `IsParentOf` overload is the engine's `IsChildOf` with the
      arguments swapped, through the receiver's transform; the `IsChildOf`
      overloads are the engine's method on their transform, and throw on a
      null parent. */
  lemma {:induction false} ParentOfIsChildOfSwapped(a: Transform, b: Transform, comp: Component, obj: GameObject)
    ensures IsParentOf(a, b) <==> a in [b] + Ancestors(b)
    ensures IsParentOf(a, a)
    ensures ComponentIsParentOf(comp, b) <==> IsParentOf(comp.transform, b)
    ensures GameObjectIsParentOf(obj, b) <==> IsParentOf(obj.transform, b)
    ensures ComponentIsChildOf(comp, Some(a)) == Ok(IsParentOf(a, comp.transform))
    ensures GameObjectIsChildOf(obj, Some(a)) == Ok(IsParentOf(a, obj.transform))
    ensures ComponentIsChildOf(comp, None) == Err(ArgumentNullError)
    ensures GameObjectIsChildOf(obj, None) == Err(ArgumentNullError)
  {
    EngineIsChildOfIsAncestryOrSelf(b, a);
  }
}
