/** `Router`: the navigation stack of a module, as a sequence of routes. */
module Navigation {

  class Router<Route> {
    /** `navPath`: the routes pushed so far, the last one on top. */
    var navPath: seq<Route>

    constructor ()
      ensures navPath == []
    {
      navPath := [];
    }

    /** `push(_:)` */
    method Push(destination: Route)
      modifies this
      ensures navPath == old(navPath) + [destination]
    {
      navPath := navPath + [destination];
    }

    /** `push(destination:)`: the same as `push(_:)`. */
    method PushDestination(destination: Route)
      modifies this
      ensures navPath == old(navPath) + [destination]
    {
      Push(destination);
    }

    /** `pop()`: `removeLast()` traps on an empty path. */
    method Pop()
      requires navPath != []
      modifies this
      ensures navPath == old(navPath)[..|old(navPath)| - 1]
    {
      navPath := navPath[..|navPath| - 1];
    }

    /** `popToRoot()`: `removeLast(count)`. */
    method PopToRoot()
      modifies this
      ensures navPath == []
    {
      navPath := navPath[..|navPath| - |navPath|];
    }

    /** `replace(newDestination:)` */
    method Replace(newDestination: Route)
      modifies this
      ensures navPath == [newDestination]
    {
      PopToRoot();
      Push(newDestination);
    }
  }

  /** The unit-test scenarios of the router, each on a fresh router and
      observed through the length of the path. */
  method RouterScenarios<Route>(first: Route, second: Route)
    returns (afterPush: nat, afterPushDestination: nat, afterPop: nat,
             afterPopToRoot: nat, afterReplace: nat)
    ensures afterPush == 1 && afterPushDestination == 1
    ensures afterPop == 0 && afterPopToRoot == 0 && afterReplace == 1
  {
    var r1 := new Router<Route>();
    r1.Push(first);
    afterPush := |r1.navPath|;

    var r2 := new Router<Route>();
    r2.PushDestination(first);
    afterPushDestination := |r2.navPath|;

    var r3 := new Router<Route>();
    r3.Push(first);
    r3.Pop();
    afterPop := |r3.navPath|;

    var r4 := new Router<Route>();
    r4.Push(first);
    r4.Push(second);
    r4.PopToRoot();
    afterPopToRoot := |r4.navPath|;

    var r5 := new Router<Route>();
    r5.Replace(first);
    afterReplace := |r5.navPath|;
  }
}
