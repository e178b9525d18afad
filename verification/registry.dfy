/**
 * The window's component registry, `m_components`: an ordered list of owned
 * components. A component is identified by its address; `dynamic_cast` to a
 * component class succeeds exactly for components of that class.
 */
module Registry {
  import opened Wrappers

  /** The component classes the window creates. */
  datatype ComponentKind =
    | ControlComponent
    | FileComponent
    | ProcessComponent
    | ScriptComponent
    | SettingsComponent
    | ViewComponent
    | ScenarioWebMessage
    | ScenarioAddHostObject
    | ScenarioWebViewEventMonitor
    | ScenarioAuthentication
    | ScenarioCookieManagement
    | ScenarioDomContentLoaded
    | ScenarioNavigateWithWebResourceRequest

  /** One owned component: `id` is its address, `kind` its most-derived class. */
  datatype Component = Component(id: nat, kind: ComponentKind)

  /** What a scan of the list looks for. */
  datatype Matcher =
    | SamePointer(ptr: nat)                // `iter->get() == component`
    | OfType(kind: ComponentKind)          // `dynamic_cast<ComponentType*>(iter->get())`
    | AcceptsMessage(accepting: set<nat>)  // the components whose handler claims the message

  predicate Matches(c: Component, m: Matcher) {
    match m
    case SamePointer(p) => c.id == p
    case OfType(k) => c.kind == k
    case AcceptsMessage(a) => c.id in a
  }

  /** The position of the first entry a front-to-back scan stops at, if any. */
  function FirstMatch(s: seq<Component>, m: Matcher): (r: Option<nat>)
    ensures r.Some? ==> r.value < |s| && Matches(s[r.value], m)
    ensures r.Some? ==> forall j :: 0 <= j < r.value ==> !Matches(s[j], m)
    ensures r.None? <==> forall j :: 0 <= j < |s| ==> !Matches(s[j], m)
  {
    if s == [] then None
    else if Matches(s[0], m) then Some(0)
    else match FirstMatch(s[1..], m)
      case None => None
      case Some(k) => Some(k + 1)
  }

  /** `erase` at position `k`: the entries before `k` stay, the ones after move down by one. */
  function Without(s: seq<Component>, k: nat): (r: seq<Component>)
    requires k < |s|
    ensures |r| == |s| - 1
    ensures forall j :: 0 <= j < k ==> r[j] == s[j]
    ensures forall j :: k <= j < |r| ==> r[j] == s[j + 1]
    ensures multiset(r) + multiset{s[k]} == multiset(s)
  {
    assert s == s[..k] + [s[k]] + s[k + 1..];
    s[..k] + s[k + 1..]
  }

  /**
   * The entries from the back to the front: the order in which a `pop_back`
   * loop destroys them.
   */
  function Reversed(s: seq<Component>): (r: seq<Component>)
    ensures |r| == |s|
    ensures forall j :: 0 <= j < |s| ==> r[j] == s[|s| - 1 - j]
  {
    if s == [] then [] else [s[|s| - 1]] + Reversed(s[..|s| - 1])
  }

  /** Destroying every entry from the back destroys each of them exactly once. */
  lemma {:induction false} ReversedIsPermutation(s: seq<Component>)
    ensures multiset(Reversed(s)) == multiset(s)
  {
    if s != [] {
      ReversedIsPermutation(s[..|s| - 1]);
      assert s == s[..|s| - 1] + [s[|s| - 1]];
    }
  }

  /** Each component is owned by exactly one `unique_ptr`, so no address occurs twice. */
  predicate DistinctIds(s: seq<Component>) {
    forall i, j :: 0 <= i < j < |s| ==> s[i].id != s[j].id
  }

  /** Every address in the list is below `bound`. */
  predicate IdsBelow(s: seq<Component>, bound: nat) {
    forall i :: 0 <= i < |s| ==> s[i].id < bound
  }

  /**
   * Erasing one entry of a list of distinct components keeps the rest distinct,
   * and the erased component no longer occurs: it was removed, not just one copy of it.
   */
  lemma WithoutRemovesComponent(s: seq<Component>, k: nat)
    requires DistinctIds(s) && k < |s|
    ensures DistinctIds(Without(s, k))
    ensures forall j :: 0 <= j < |Without(s, k)| ==> Without(s, k)[j].id != s[k].id
  {
    var r := Without(s, k);
    forall i, j | 0 <= i < j < |r| ensures r[i].id != r[j].id {
      var i' := if i < k then i else i + 1;
      var j' := if j < k then j else j + 1;
      assert r[i] == s[i'] && r[j] == s[j'] && i' < j';
    }
    forall j | 0 <= j < |r| ensures r[j].id != s[k].id {
      var j' := if j < k then j else j + 1;
      assert r[j] == s[j'] && j' != k;
    }
  }

  /**
   * `DeleteComponent` on a list of distinct components: the component with that
   * address is gone afterwards, everything else is kept in order, and a pointer
   * that is not in the list changes nothing.
   */
  lemma DeletedPointerIsGone(s: seq<Component>, ptr: nat)
    requires DistinctIds(s)
    ensures var r := match FirstMatch(s, SamePointer(ptr))
                     case None => s
                     case Some(k) => Without(s, k);
            && DistinctIds(r)
            && (forall j :: 0 <= j < |r| ==> r[j].id != ptr)
            && multiset(r) <= multiset(s)
            && |r| == (if exists j :: 0 <= j < |s| && s[j].id == ptr then |s| - 1 else |s|)
  {
    match FirstMatch(s, SamePointer(ptr))
    case None =>
      assert forall j :: 0 <= j < |s| ==> !Matches(s[j], SamePointer(ptr));
    case Some(k) =>
      WithoutRemovesComponent(s, k);
  }

  /** The components `OnCreateCoreWebView2ControllerCompleted` creates, in creation order. */
  const WebViewComponentKinds: seq<ComponentKind> :=
    [FileComponent, ProcessComponent, ScriptComponent, SettingsComponent, ViewComponent, ControlComponent]
}
