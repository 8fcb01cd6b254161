/** The endpoints that are trading actions, by the paths they have (`route` and the list at
    the top of `src/auth/trading.rs`). */
module Routes {
  import opened Common
  import opened Coding
  import opened Text
  import opened TradingRequest

  predicate LoneName(s: Bytes) { s != [] && '/' !in s && '?' !in s }

  /** Two names behind any prefix are what the route is decided by. */
  lemma TwoNamesDecide(verb: Bytes, prefix: Bytes, a: Bytes, b: Bytes)
    requires '?' !in prefix && LoneName(a) && LoneName(b)
    ensures RouteOf(verb, prefix + ['/'] + a + ['/'] + b) == Routed(Upper(verb), a, b)
  {
    PathSplits(prefix + ['/'] + a, b);
    PathSplits(prefix, a);
    LoneSegment(a);
    LoneSegment(b);
    assert PathSegments(prefix) + [a] + [b] == PathSegments(prefix) + [a, b];
    LastTwoDecide(Upper(verb), PathSegments(prefix), a, b);
  }

  /** One name, behind a prefix that does not change the route. */
  lemma OneNameDecides(verb: Bytes, prefix: Bytes, b: Bytes)
    requires '?' !in prefix && LoneName(b)
    ensures exists previous :: RouteOf(verb, prefix + ['/'] + b) == Routed(Upper(verb), previous, b)
  {
    PathSplits(prefix, b);
    LoneSegment(b);
    var segments := PathSegments(prefix) + [b];
    var n := |segments|;
    assert segments[n - 1] == b;
    assert RouteIn(Upper(verb), segments) == Routed(Upper(verb), if n > 1 then segments[n - 2] else "", b);
  }

  lemma PostIsPost()
    ensures Upper("POST") == "POST" && Upper("post") == "POST"
  {
  }

  lemma OrderNames()
    ensures LoneName("orders") && LoneName("batch") && LoneName("leverage")
  {
  }

  lemma AccountNames()
    ensures LoneName("account") && LoneName("margin") && LoneName("margin-mode")
  {
  }

  lemma OrdersArePlaced(previous: Bytes)
    ensures Routed("POST", previous, "orders") == Some(PlaceOrder)
    ensures Routed("POST", "orders", "batch") == Some(PlaceOrders)
  {
    assert |"batch"| != |"orders"|;
  }

  lemma AccountsAreSet()
    ensures Routed("POST", "account", "margin") == Some(AdjustMargin)
    ensures Routed("POST", "account", "margin-mode") == Some(SetMarginMode)
  {
    assert |"margin"| == |"orders"| && "margin"[0] != "orders"[0];
    assert |"margin-mode"| != |"orders"| && |"margin-mode"| != |"margin"|;
    assert |"account"| != |"orders"|;
  }

  lemma LeverageIsSet(previous: Bytes)
    ensures Routed("POST", previous, "leverage") == Some(SetLeverage)
  {
    assert |"leverage"| != |"orders"| && |"leverage"| != |"batch"| && |"leverage"| != |"margin"|;
    assert |"leverage"| != |"margin-mode"|;
  }

  /** Under any prefix, `POST /orders` places an order and `POST /orders/batch` a batch. */
  lemma OrdersAreRouted(prefix: Bytes)
    requires '?' !in prefix
    ensures RouteOf("POST", prefix + ['/'] + "orders") == Some(PlaceOrder)
    ensures RouteOf("POST", prefix + ['/'] + "orders" + ['/'] + "batch") == Some(PlaceOrders)
  {
    PostIsPost();
    OrderNames();
    OneNameDecides("POST", prefix, "orders");
    TwoNamesDecide("POST", prefix, "orders", "batch");
    forall previous ensures Routed("POST", previous, "orders") == Some(PlaceOrder) { OrdersArePlaced(previous); }
    OrdersArePlaced("");
  }

  /** `DELETE /orders` cancels all. */
  lemma CancelAllIsRouted(prefix: Bytes)
    requires '?' !in prefix
    ensures RouteOf("DELETE", prefix + ['/'] + "orders") == Some(CancelAllOrders)
  {
    OrderNames();
    OneNameDecides("DELETE", prefix, "orders");
    forall previous ensures Routed(Upper("DELETE"), previous, "orders") == Some(CancelAllOrders) {
      DeletesAreRouted(previous, "orders");
    }
  }

  /** Under any prefix, the margin, the margin mode and the leverage are set by their paths. */
  lemma SettingsAreRouted(prefix: Bytes)
    requires '?' !in prefix
    ensures RouteOf("POST", prefix + ['/'] + "account" + ['/'] + "margin") == Some(AdjustMargin)
    ensures RouteOf("POST", prefix + ['/'] + "account" + ['/'] + "margin-mode") == Some(SetMarginMode)
    ensures RouteOf("POST", prefix + ['/'] + "leverage") == Some(SetLeverage)
  {
    PostIsPost();
    OrderNames();
    AccountNames();
    TwoNamesDecide("POST", prefix, "account", "margin");
    TwoNamesDecide("POST", prefix, "account", "margin-mode");
    OneNameDecides("POST", prefix, "leverage");
    AccountsAreSet();
    forall previous ensures Routed("POST", previous, "leverage") == Some(SetLeverage) { LeverageIsSet(previous); }
  }

  lemma OnlyThreeVerbs(verb: Bytes, previous: Bytes, last: Bytes)
    requires verb != "POST" && verb != "PATCH" && verb != "DELETE"
    ensures Routed(verb, previous, last).None?
  {
  }

  /** Nothing is an action that is not posted, patched or deleted: reads never are. */
  lemma ReadsAreNotActions(verb: Bytes, path: Bytes)
    requires Upper(verb) != "POST" && Upper(verb) != "PATCH" && Upper(verb) != "DELETE"
    ensures RouteOf(verb, path).None?
  {
    var segments := PathSegments(path);
    var n := |segments|;
    if n > 0 { OnlyThreeVerbs(Upper(verb), if n > 1 then segments[n - 2] else "", segments[n - 1]); }
  }

  lemma PreviewIsNoRoute()
    ensures LoneName("preview") && Routed("POST", "orders", "preview").None?
  {
    assert |"preview"| != |"orders"| && |"preview"| != |"batch"| && |"preview"| != |"leverage"|;
    assert |"orders"| != |"account"|;
  }

  /** `POST /orders/preview` is no action. */
  lemma PreviewIsNoAction(prefix: Bytes)
    requires '?' !in prefix
    ensures RouteOf("POST", prefix + ['/'] + "orders" + ['/'] + "preview").None?
  {
    PostIsPost();
    OrderNames();
    PreviewIsNoRoute();
    TwoNamesDecide("POST", prefix, "orders", "preview");
  }
}
