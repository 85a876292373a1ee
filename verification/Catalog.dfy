/** The contract artifact catalog: dependency-ordered rendering. */
module Catalog {
  import opened Text

  type Store = map<string, string>

  datatype Kind = SchemaKind | ExampleKind

  /** What an example must agree with, and so which artifacts its check reads. */
  datatype Expectation =
    | SchemaExpectation
    | RunRequestExpectation
    | ReceiptExpectation(requestPath: string)
    | EffectRequestExpectation(runPath: string)
    | EffectResultExpectation(effectRunPath: string, effectPath: string)

  /** `build` renders and checks an artifact from the values in the store, or fails. */
  datatype Artifact = Artifact(
    name: string, path: string, kind: Kind, schemaPath: Option<string>, dependencies: seq<string>, build: Store -> Option<string>,
    expectation: Expectation)

  type Registry = map<string, Artifact>

  // ---- The dependency graph ----

  predicate DependenciesAreRegistered(registry: Registry) {
    forall p | p in registry :: forall d | d in registry[p].dependencies :: d in registry
  }

  /** Each artifact of a walk depends on the next. */
  predicate IsWalk(registry: Registry, walk: seq<string>) {
    && walk != [] && (forall i | 0 <= i < |walk| :: walk[i] in registry)
    && forall i | 0 <= i < |walk| - 1 :: walk[i + 1] in registry[walk[i]].dependencies
  }

  predicate Repeats(walk: seq<string>) {
    exists i, j | 0 <= i < j < |walk| :: walk[i] == walk[j]
  }

  ghost predicate ReachesCycle(registry: Registry, path: string) {
    exists walk :: IsWalk(registry, walk) && walk[0] == path && Repeats(walk)
  }

  /** The artifact is one of `targets` or depends on one, directly or through others. */
  ghost predicate Reaches(registry: Registry, targets: set<string>, path: string) {
    exists walk :: IsWalk(registry, walk) && walk[0] == path && walk[|walk| - 1] in targets
  }

  ghost predicate IsAcyclic(registry: Registry) {
    forall p | p in registry :: !ReachesCycle(registry, p)
  }

  /** Every artifact once, each after everything it depends on. */
  predicate IsOrdered(registry: Registry, order: seq<string>) {
    && (forall k | 0 <= k < |order| :: order[k] in registry)
    && (forall i, j | 0 <= i < j < |order| :: order[i] != order[j])
    && (forall k | 0 <= k < |order| :: forall d | d in registry[order[k]].dependencies :: d in order[..k])
  }

  /** A set in which every artifact depends on another of the set. */
  predicate IsStuck(registry: Registry, stuck: set<string>) {
    stuck <= registry.Keys && forall p {:trigger DependsWithin(registry, stuck, p)} | p in stuck :: DependsWithin(registry, stuck, p)
  }

  predicate DependsWithin(registry: Registry, stuck: set<string>, path: string) {
    path in registry && exists d | d in registry[path].dependencies :: d in stuck
  }

  lemma {:induction false} LongWalk(registry: Registry, stuck: set<string>, path: string, n: nat) returns (walk: seq<string>)
    requires IsStuck(registry, stuck) && path in stuck
    ensures IsWalk(registry, walk) && |walk| == n + 1 && walk[0] == path && forall i | 0 <= i < |walk| :: walk[i] in stuck
    decreases n
  {
    if n == 0 {
      walk := [path];
    } else {
      assert DependsWithin(registry, stuck, path);
      var d :| d in registry[path].dependencies && d in stuck;
      var rest := LongWalk(registry, stuck, d, n - 1);
      walk := [path] + rest;
    }
  }

  /** A walk longer than the set it stays in repeats itself. */
  lemma {:induction false} Pigeonhole(walk: seq<string>, within: set<string>)
    requires forall i | 0 <= i < |walk| :: walk[i] in within
    requires |walk| > |within|
    ensures Repeats(walk)
  {
    if walk != [] {
      var last := |walk| - 1;
      var shorter := walk[..last];
      if walk[last] in shorter {
        var i :| 0 <= i < last && shorter[i] == walk[last];
        assert walk[i] == walk[last];
      } else {
        Pigeonhole(shorter, within - {walk[last]});
        var i, j :| 0 <= i < j < |shorter| && shorter[i] == shorter[j];
        assert walk[i] == walk[j];
      }
    }
  }

  lemma StuckReachesCycle(registry: Registry, stuck: set<string>, path: string)
    requires IsStuck(registry, stuck) && path in stuck
    ensures ReachesCycle(registry, path)
  {
    var walk := LongWalk(registry, stuck, path, |stuck|);
    Pigeonhole(walk, stuck);
  }

  /** A walk from an ordered artifact descends through the order. */
  lemma {:induction false} WalkDescends(registry: Registry, order: seq<string>, walk: seq<string>, k: nat, i: nat)
    requires IsOrdered(registry, order) && k < |order| && IsWalk(registry, walk) && walk[0] == order[k] && i < |walk|
    ensures walk[i] in order[..k + 1] && (i > 0 ==> walk[i] in order[..k])
    decreases k
  {
    if i > 0 {
      var next := walk[1];
      assert next in order[..k];
      var m :| 0 <= m < k && order[m] == next;
      WalkDescends(registry, order, walk[1..], m, i - 1);
      assert walk[i] == walk[1..][i - 1];
      PrefixContains(order, m + 1, k, walk[i]);
    }
  }

  lemma PrefixContains(order: seq<string>, m: nat, k: nat, x: string)
    requires m <= k <= |order| && x in order[..m]
    ensures x in order[..k]
  {
    var i :| 0 <= i < m && order[..m][i] == x;
    assert order[..k][i] == x;
  }

  lemma {:induction false} OrderedReachesNoCycle(registry: Registry, order: seq<string>, k: nat)
    requires IsOrdered(registry, order) && k < |order|
    ensures !ReachesCycle(registry, order[k])
  {
    forall walk | IsWalk(registry, walk) && walk[0] == order[k] ensures !Repeats(walk) {
      forall i, j | 0 <= i < j < |walk| ensures walk[i] != walk[j] {
        WalkDescends(registry, order, walk, k, i);
        var m :| 0 <= m < k + 1 && order[m] == walk[i];
        assert IsWalk(registry, walk[i..]) && walk[i..][0] == order[m];
        WalkDescends(registry, order, walk[i..], m, j - i);
        assert walk[i..][j - i] == walk[j];
      }
    }
  }

  // ---- Rendering ----

  /** What rendering in this order puts into the store; a failed build adds nothing. */
  function StoreAfter(registry: Registry, order: seq<string>): Store
    requires forall k | 0 <= k < |order| :: order[k] in registry
  {
    if order == [] then map[]
    else
      var last := |order| - 1;
      var store := StoreAfter(registry, order[..last]);
      var built := registry[order[last]].build(store);
      if built.Some? then store[order[last] := built.value] else store
  }

  /** Everything this artifact depends on was rendered in `order`, and its builder refuses what that left in the store. */
  ghost predicate FailsAfter(registry: Registry, order: seq<string>, path: string) {
    && IsOrdered(registry, order) && path in registry && path !in order
    && (forall d | d in registry[path].dependencies :: d in order)
    && registry[path].build(StoreAfter(registry, order)).None?
  }

  /** Builders succeed on what rendering their dependencies leaves in the store. */
  ghost predicate BuildersSucceed(registry: Registry) {
    forall order, path :: !FailsAfter(registry, order, path)
  }

  predicate IsReady(registry: Registry, store: Store, path: string) {
    path in registry && forall d | d in registry[path].dependencies :: d in store
  }

  /** What the loop keeps: the store was rendered in `order`, and the rest is waiting or has failed. */
  ghost predicate IsRendering(registry: Registry, remaining: set<string>, store: Store, failed: set<string>, order: seq<string>) {
    && IsOrdered(registry, order)
    && store.Keys == (set p | p in order) && store == StoreAfter(registry, order)
    && remaining + store.Keys + failed == registry.Keys
    && remaining !! store.Keys && remaining !! failed && store.Keys !! failed
    && (forall p | p in failed :: exists earlier | earlier <= order :: FailsAfter(registry, earlier, p))
  }

  lemma OrderGrows(registry: Registry, order: seq<string>, path: string)
    requires IsOrdered(registry, order) && path in registry && path !in order
    requires forall d | d in registry[path].dependencies :: d in order
    ensures IsOrdered(registry, order + [path])
  {
    var longer := order + [path];
    assert forall k | 0 <= k <= |order| :: longer[..k] == order[..k];
    assert order[..|order|] == order;
  }

  lemma StoreGrows(registry: Registry, order: seq<string>, path: string)
    requires (forall k | 0 <= k < |order| :: order[k] in registry) && path in registry
    ensures StoreAfter(registry, order + [path]) ==
            var store, built := StoreAfter(registry, order), registry[path].build(StoreAfter(registry, order));
            if built.Some? then store[path := built.value] else store
  {
    assert (order + [path])[..|order|] == order;
  }

  /** Renders one ready artifact. */
  method RenderReady(registry: Registry, store: Store, path: string, ghost remaining: set<string>, ghost failed: set<string>, ghost order: seq<string>)
    returns (newStore: Store, succeeded: bool, ghost newOrder: seq<string>)
    requires path in remaining && IsReady(registry, store, path) && IsRendering(registry, remaining, store, failed, order)
    ensures succeeded ==> newOrder == order + [path] && IsRendering(registry, remaining - {path}, newStore, failed, newOrder)
    ensures !succeeded ==> newStore == store && newOrder == order && IsRendering(registry, remaining - {path}, store, failed + {path}, order)
    ensures store.Keys <= newStore.Keys
  {
    hide StoreAfter, IsOrdered;
    newStore, newOrder := store, order;
    var built := registry[path].build(store);
    succeeded := built.Some?;
    assert forall p | p in store :: p in store.Keys;
    if !succeeded {
      assert FailsAfter(registry, order, path);
    } else {
      OrderedAreRegistered(registry, order);
      OrderGrows(registry, order, path);
      StoreGrows(registry, order, path);
      newStore := store[path := built.value];
      newOrder := order + [path];
    }
  }

  lemma OrderedAreRegistered(registry: Registry, order: seq<string>)
    requires IsOrdered(registry, order)
    ensures forall k | 0 <= k < |order| :: order[k] in registry
  {
  }

  lemma ReadyPersists(registry: Registry, store: Store, newStore: Store, ready: set<string>)
    requires store.Keys <= newStore.Keys && forall p | p in ready :: IsReady(registry, store, p)
    ensures forall p | p in ready :: IsReady(registry, newStore, p)
  {
    forall p | p in ready ensures IsReady(registry, newStore, p) {
      assert IsReady(registry, store, p);
      assert forall d | d in store :: d in store.Keys && d in newStore.Keys;
    }
  }

  /** One round: renders every artifact that was ready when the round began, in any order. */
  method RenderRound(registry: Registry, ready: set<string>, remaining: set<string>, store: Store, failed: set<string>, ghost order: seq<string>)
    returns (newRemaining: set<string>, newStore: Store, newFailed: set<string>, ghost newOrder: seq<string>)
    requires ready <= remaining && (forall p | p in ready :: IsReady(registry, store, p)) && IsRendering(registry, remaining, store, failed, order)
    ensures newRemaining == remaining - ready && IsRendering(registry, newRemaining, newStore, newFailed, newOrder)
  {
    hide IsReady, IsRendering;
    newRemaining, newStore, newFailed, newOrder := remaining, store, failed, order;
    var waiting := ready;
    while waiting != {}
      invariant waiting <= ready && newRemaining == remaining - (ready - waiting)
      invariant IsRendering(registry, newRemaining, newStore, newFailed, newOrder)
      invariant forall p | p in waiting :: IsReady(registry, newStore, p)
      decreases |waiting|
    {
      var path :| path in waiting;
      ghost var before := newStore;
      var succeeded;
      newStore, succeeded, newOrder := RenderReady(registry, newStore, path, newRemaining, newFailed, newOrder);
      if !succeeded {
        newFailed := newFailed + {path};
      }
      ReadyPersists(registry, before, newStore, waiting);
      waiting := waiting - {path};
      newRemaining := newRemaining - {path};
      assert newRemaining == remaining - (ready - waiting);
    }
    assert ready - {} == ready;
  }

  lemma InitiallyRendering(registry: Registry)
    ensures IsRendering(registry, registry.Keys, map[], {}, [])
  {
  }

  /** Rounds of rendering until nothing is ready. The result is everything, or what was not rendered: the artifacts that reach a
      cycle or an artifact whose builder failed. */
  method Render(registry: Registry) returns (result: Result<Store, set<string>>, ghost order: seq<string>, ghost failed: set<string>)
    requires DependenciesAreRegistered(registry)
    ensures IsOrdered(registry, order)
    ensures forall p | p in failed :: exists earlier | earlier <= order :: FailsAfter(registry, earlier, p)
    ensures result.Success? ==> result.value == StoreAfter(registry, order) && result.value.Keys == registry.Keys == set p | p in order
    ensures result.Success? <==> failed == {} && IsAcyclic(registry)
    ensures result.Failure? ==> result.error == set p | p in registry && (ReachesCycle(registry, p) || Reaches(registry, failed, p))
    ensures BuildersSucceed(registry) ==> failed == {}
    ensures BuildersSucceed(registry) && result.Failure? ==> result.error == set p | p in registry && ReachesCycle(registry, p)
  {
    hide IsReady, IsRendering, BuildersSucceed, ReachesCycle, Reaches, IsAcyclic, DependenciesAreRegistered, FailsAfter;
    var remaining := registry.Keys;
    var store: Store := map[];
    var refused: set<string> := {};
    order := [];
    InitiallyRendering(registry);
    var ready := set p | p in remaining && IsReady(registry, store, p);
    while ready != {}
      invariant IsRendering(registry, remaining, store, refused, order)
      invariant ready == set p | p in remaining && IsReady(registry, store, p)
      decreases |remaining|
    {
      ghost var before := remaining;
      remaining, store, refused, order := RenderRound(registry, ready, remaining, store, refused, order);
      SmallerSet(remaining, before);
      ready := set p | p in remaining && IsReady(registry, store, p);
    }
    assert forall p | p in remaining :: !IsReady(registry, store, p) by {
      forall p | p in remaining ensures !IsReady(registry, store, p) {
        assert p !in ready;
      }
    }
    RenderedExactly(registry, remaining, store, refused, order);
    failed := refused;
    SucceedingNeverFail(registry, failed);
    result := if remaining + refused == {} then Success(store) else Failure(remaining + refused);
  }

  /** When builders succeed nothing fails, and only a cycle can keep an artifact from being rendered. */
  lemma SucceedingNeverFail(registry: Registry, failed: set<string>)
    requires forall p | p in failed :: exists order :: FailsAfter(registry, order, p)
    ensures BuildersSucceed(registry) ==> failed == {}
    ensures failed == {} ==> forall p :: !Reaches(registry, failed, p)
  {
    hide FailsAfter, IsWalk;
  }

  lemma SmallerSet(a: set<string>, b: set<string>)
    requires a < b
    ensures |a| < |b|
  {
    var rest := b - a;
    assert b == a + rest && |b| == |a| + |rest|;
  }

  lemma WalkFrom(registry: Registry, targets: set<string>, path: string, next: string)
    requires path in registry && next in registry[path].dependencies && Reaches(registry, targets, next)
    ensures Reaches(registry, targets, path)
  {
    var walk :| IsWalk(registry, walk) && walk[0] == next && walk[|walk| - 1] in targets;
    var longer := [path] + walk;
    assert IsWalk(registry, longer) && longer[0] == path && longer[|longer| - 1] == walk[|walk| - 1];
  }

  lemma FailedReachThemselves(registry: Registry, failed: set<string>)
    requires failed <= registry.Keys
    ensures forall p | p in failed :: Reaches(registry, failed, p)
  {
    forall p | p in failed ensures Reaches(registry, failed, p) {
      var walk := [p];
      assert IsWalk(registry, walk) && walk[0] == p && walk[|walk| - 1] in failed;
    }
  }

  /** What is left when nothing is ready waits for something that failed, or for itself. */
  lemma LeftoverIsStuck(registry: Registry, remaining: set<string>, store: Store, failed: set<string>, order: seq<string>)
    requires DependenciesAreRegistered(registry) && IsRendering(registry, remaining, store, failed, order)
    requires forall p | p in remaining :: !IsReady(registry, store, p)
    ensures forall p | p in remaining :: Reaches(registry, failed, p) || ReachesCycle(registry, p)
  {
    hide IsOrdered, StoreAfter, Reaches, ReachesCycle, FailsAfter;
    var stuck := set p | p in remaining && !Reaches(registry, failed, p);
    FailedReachThemselves(registry, failed);
    forall p | p in stuck ensures DependsWithin(registry, stuck, p) {
      var d :| d in registry[p].dependencies && d !in store;
      assert d in registry.Keys && d !in store.Keys;
      if Reaches(registry, failed, d) {
        WalkFrom(registry, failed, p, d);
      }
    }
    forall p | p in remaining ensures Reaches(registry, failed, p) || ReachesCycle(registry, p) {
      if p in stuck {
        StuckReachesCycle(registry, stuck, p);
      }
    }
  }

  lemma RenderedReachNothingLeft(registry: Registry, remaining: set<string>, store: Store, failed: set<string>, order: seq<string>)
    requires IsRendering(registry, remaining, store, failed, order)
    ensures forall p | p in store.Keys :: !ReachesCycle(registry, p) && !Reaches(registry, failed, p)
  {
    hide ReachesCycle, StoreAfter, FailsAfter, IsOrdered;
    forall p | p in store.Keys ensures !ReachesCycle(registry, p) && !Reaches(registry, failed, p) {
      var k :| 0 <= k < |order| && order[k] == p;
      OrderedReachesNoCycle(registry, order, k);
      forall walk | IsWalk(registry, walk) && walk[0] == p ensures walk[|walk| - 1] !in failed {
        WalkDescends(registry, order, walk, k, |walk| - 1);
        var m :| 0 <= m < k + 1 && order[m] == walk[|walk| - 1];
        assert walk[|walk| - 1] in store.Keys;
      }
    }
  }

  /** When nothing is ready, what is not rendered is exactly what reaches a cycle or a failure. */
  lemma RenderedExactly(registry: Registry, remaining: set<string>, store: Store, failed: set<string>, order: seq<string>)
    requires DependenciesAreRegistered(registry) && IsRendering(registry, remaining, store, failed, order)
    requires forall p | p in remaining :: !IsReady(registry, store, p)
    ensures IsOrdered(registry, order) && store == StoreAfter(registry, order) && store.Keys == (set p | p in order)
    ensures forall p | p in failed :: exists earlier | earlier <= order :: FailsAfter(registry, earlier, p)
    ensures remaining + failed == set p | p in registry && (ReachesCycle(registry, p) || Reaches(registry, failed, p))
    ensures remaining + failed == {} <==> failed == {} && IsAcyclic(registry)
    ensures remaining + failed == {} ==> store.Keys == registry.Keys
  {
    hide IsOrdered, StoreAfter, ReachesCycle, Reaches, IsReady, DependenciesAreRegistered, FailsAfter;
    RenderedReachNothingLeft(registry, remaining, store, failed, order);
    LeftoverIsStuck(registry, remaining, store, failed, order);
    FailedReachThemselves(registry, failed);
    forall p | p in registry.Keys ensures p in remaining + failed <==> ReachesCycle(registry, p) || Reaches(registry, failed, p) {
    }
    assert remaining + failed == set p | p in registry && (ReachesCycle(registry, p) || Reaches(registry, failed, p));
    NothingReachesNothing(registry);
  }

  lemma NothingReachesNothing(registry: Registry)
    ensures forall p :: !Reaches(registry, {}, p)
  {
  }

  // ---- Validation ----

  datatype CatalogError =
    | UnregisteredDependency | SelfDependency | SchemaWithSchema | ExampleWithoutSchema | UnregisteredSchema
    | SchemaIsExample | SchemaNotDependency | MisplacedExpectation | SemanticNotDependency

  function SemanticDependencies(expectation: Expectation): seq<string> {
    match expectation
    case SchemaExpectation => []
    case RunRequestExpectation => []
    case ReceiptExpectation(requestPath) => [requestPath]
    case EffectRequestExpectation(runPath) => [runPath]
    case EffectResultExpectation(runPath, effectPath) => [runPath, effectPath]
  }

  /** The meaning of an example refers to these artifacts: a receipt to its request, an effect to its run, and a result to both. */
  predicate RefersTo(expectation: Expectation, path: string) {
    match expectation
    case ReceiptExpectation(requestPath) => path == requestPath
    case EffectRequestExpectation(runPath) => path == runPath
    case EffectResultExpectation(runPath, effectPath) => path in {runPath, effectPath}
    case _ => false
  }

  /** The artifact declares what it needs: registered dependencies, its schema, and what its meaning refers to. */
  ghost predicate IsDeclared(registry: Registry, a: Artifact) {
    && (forall d | d in a.dependencies :: d in registry && d != a.path)
    && match a.kind
       case SchemaKind => a.schemaPath.None? && a.expectation.SchemaExpectation?
       case ExampleKind =>
         && a.schemaPath.Some? && a.schemaPath.value in a.dependencies && a.schemaPath.value in registry && registry[a.schemaPath.value].kind.SchemaKind?
         && !a.expectation.SchemaExpectation?
         && forall d | RefersTo(a.expectation, d) :: d in a.dependencies
  }

  /** What each error says. */
  ghost predicate HasFault(e: CatalogError, registry: Registry, a: Artifact) {
    match e
    case UnregisteredDependency => exists d | d in a.dependencies :: d !in registry
    case SelfDependency => a.path in a.dependencies
    case SchemaWithSchema => a.kind.SchemaKind? && a.schemaPath.Some?
    case ExampleWithoutSchema => a.kind.ExampleKind? && a.schemaPath.None?
    case UnregisteredSchema => a.kind.ExampleKind? && a.schemaPath.Some? && a.schemaPath.value !in registry
    case SchemaIsExample =>
      a.kind.ExampleKind? && a.schemaPath.Some? && a.schemaPath.value in registry && registry[a.schemaPath.value].kind.ExampleKind?
    case SchemaNotDependency => a.kind.ExampleKind? && a.schemaPath.Some? && a.schemaPath.value !in a.dependencies
    case MisplacedExpectation => a.kind.SchemaKind? != a.expectation.SchemaExpectation?
    case SemanticNotDependency => a.kind.ExampleKind? && exists d :: RefersTo(a.expectation, d) && d !in a.dependencies
  }

  /** An artifact is declared when it has no fault. */
  lemma DeclaredHasNoFault(registry: Registry, a: Artifact)
    ensures IsDeclared(registry, a) <==> forall e: CatalogError :: !HasFault(e, registry, a)
  {
    if forall e: CatalogError :: !HasFault(e, registry, a) {
      assert !HasFault(UnregisteredDependency, registry, a) && !HasFault(SelfDependency, registry, a) && !HasFault(SchemaWithSchema, registry, a);
      assert !HasFault(ExampleWithoutSchema, registry, a) && !HasFault(UnregisteredSchema, registry, a) && !HasFault(SchemaIsExample, registry, a);
      assert !HasFault(SchemaNotDependency, registry, a) && !HasFault(MisplacedExpectation, registry, a) && !HasFault(SemanticNotDependency, registry, a);
    }
  }

  method DependencyErrors(registry: Registry, a: Artifact) returns (errors: seq<CatalogError>)
    ensures forall e :: e in errors <==> e in {UnregisteredDependency, SelfDependency} && HasFault(e, registry, a)
  {
    errors := [];
    var index := 0;
    while index < |a.dependencies|
      invariant 0 <= index <= |a.dependencies|
      invariant UnregisteredDependency in errors <==> exists d | d in a.dependencies[..index] :: d !in registry
      invariant SelfDependency in errors <==> a.path in a.dependencies[..index]
      invariant forall e | e in errors :: e in {UnregisteredDependency, SelfDependency}
    {
      var d := a.dependencies[index];
      assert a.dependencies[..index + 1] == a.dependencies[..index] + [d];
      if d !in registry {
        errors := errors + [UnregisteredDependency];
      }
      if d == a.path {
        errors := errors + [SelfDependency];
      }
      index := index + 1;
    }
    assert a.dependencies[..index] == a.dependencies;
  }

  method SemanticErrors(a: Artifact) returns (errors: seq<CatalogError>)
    ensures forall e :: e in errors <==> e == SemanticNotDependency && exists d :: RefersTo(a.expectation, d) && d !in a.dependencies
  {
    var semantic := SemanticDependencies(a.expectation);
    assert forall d :: d in semantic <==> RefersTo(a.expectation, d);
    errors := [];
    var index := 0;
    while index < |semantic|
      invariant 0 <= index <= |semantic|
      invariant forall e :: e in errors <==> e == SemanticNotDependency && exists d | d in semantic[..index] :: d !in a.dependencies
    {
      var d := semantic[index];
      assert semantic[..index + 1] == semantic[..index] + [d];
      if d !in a.dependencies {
        errors := errors + [SemanticNotDependency];
      }
      index := index + 1;
    }
    assert semantic[..index] == semantic;
  }

  /** The errors of one artifact's declarations: each is there exactly when its fault is. */
  method DeclarationErrors(registry: Registry, a: Artifact) returns (errors: seq<CatalogError>)
    ensures forall e :: e in errors <==> HasFault(e, registry, a)
    ensures errors == [] <==> IsDeclared(registry, a)
  {
    DeclaredHasNoFault(registry, a);
    errors := DependencyErrors(registry, a);
    match a.kind {
      case SchemaKind =>
        if a.schemaPath.Some? {
          errors := errors + [SchemaWithSchema];
        }
        if !a.expectation.SchemaExpectation? {
          errors := errors + [MisplacedExpectation];
        }
      case ExampleKind =>
        if a.schemaPath.None? {
          errors := errors + [ExampleWithoutSchema];
        } else {
          var schema := a.schemaPath.value;
          if schema !in registry {
            errors := errors + [UnregisteredSchema];
          }
          if schema in registry && registry[schema].kind.ExampleKind? {
            errors := errors + [SchemaIsExample];
          }
          if schema !in a.dependencies {
            errors := errors + [SchemaNotDependency];
          }
        }
        if a.expectation.SchemaExpectation? {
          errors := errors + [MisplacedExpectation];
        } else {
          var semantic := SemanticErrors(a);
          errors := errors + semantic;
        }
    }
    assert errors != [] ==> errors[0] in errors;
  }

  ghost predicate IsValid(registry: Registry) {
    forall p | p in registry :: registry[p].path == p && IsDeclared(registry, registry[p])
  }

  datatype CatalogFailure = InvalidCatalog | NotRendered(paths: set<string>)

  /** Validates every artifact's declarations, and renders the catalog in dependency order. */
  method RenderCatalog(registry: Registry) returns (result: Result<Store, CatalogFailure>, ghost order: seq<string>, ghost failed: set<string>)
    requires forall p | p in registry :: registry[p].path == p
    ensures result == Failure(InvalidCatalog) <==> !IsValid(registry)
    ensures IsValid(registry) ==>
              && IsOrdered(registry, order)
              && (result.Success? ==> result.value == StoreAfter(registry, order) && result.value.Keys == registry.Keys == set p | p in order)
              && (forall p | p in failed :: exists earlier | earlier <= order :: FailsAfter(registry, earlier, p))
              && (BuildersSucceed(registry) ==> failed == {})
              && (result.Success? <==> failed == {} && IsAcyclic(registry))
              && (result.Failure? ==>
                    result.error == NotRendered(set p | p in registry && (ReachesCycle(registry, p) || Reaches(registry, failed, p))))
  {
    hide IsOrdered, StoreAfter, BuildersSucceed, IsAcyclic, ReachesCycle, Reaches, IsDeclared, FailsAfter;
    order, failed := [], {};
    var unchecked := registry.Keys;
    var errors: seq<CatalogError> := [];
    while unchecked != {}
      invariant unchecked <= registry.Keys
      invariant errors == [] <==> forall p | p in registry.Keys - unchecked :: IsDeclared(registry, registry[p])
      decreases |unchecked|
    {
      var p :| p in unchecked;
      var found := DeclarationErrors(registry, registry[p]);
      assert registry.Keys - (unchecked - {p}) == registry.Keys - unchecked + {p};
      errors := errors + found;
      unchecked := unchecked - {p};
    }
    if errors != [] {
      return Failure(InvalidCatalog), [], {};
    }
    ValidIsRegistered(registry);
    var rendered;
    rendered, order, failed := Render(registry);
    result := if rendered.Success? then Success(rendered.value) else Failure(NotRendered(rendered.error));
  }

  lemma ValidIsRegistered(registry: Registry)
    requires IsValid(registry)
    ensures DependenciesAreRegistered(registry)
  {
    forall p | p in registry ensures forall d | d in registry[p].dependencies :: d in registry {
      assert IsDeclared(registry, registry[p]);
    }
  }
}
