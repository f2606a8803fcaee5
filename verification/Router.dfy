/** The two generated routers, one path grammar, and the paths the generated client builds. */
module Router {
  import opened Domain

  const ROOT: string := "/api/v1/orders"

  datatype Operation = CreateOrder | GetOrder | CancelOrder | PayOrder

  // ----- The grammar -----

  function Suffix(op: Operation): string {
    match op
    case CreateOrder => ""
    case GetOrder => ""
    case CancelOrder => "/cancel"
    case PayOrder => "/pay"
  }

  /** The four path templates of the API. */
  function Template(op: Operation, id: string): string {
    if op.CreateOrder? then ROOT else ROOT + ("/" + (id + Suffix(op)))
  }

  function MethodOf(op: Operation): string {
    if op.GetOrder? then "GET" else "POST"
  }

  predicate SlashFree(s: string) {
    '/' !in s
  }

  /** The path is the configured prefix and an instance of the operation's template; the id may be empty. */
  ghost predicate Matches(prefix: string, path: string, op: Operation, id: string) {
    && path == prefix + Template(op, id)
    && SlashFree(id)
    && (op.CreateOrder? ==> id == "")
  }

  // ----- Library functions -----

  /** strings.IndexByte for '/', with the length in place of -1. */
  function SlashIndex(s: string): (n: nat)
    ensures n <= |s| && SlashFree(s[..n]) && (n < |s| ==> s[n] == '/')
  {
    if s == "" || s[0] == '/' then 0
    else
      var n := SlashIndex(s[1..]);
      assert s[..n + 1] == [s[0]] + s[1..][..n];
      n + 1
  }

  function CutPrefix(prefix: string, path: string): (r: Option<string>)
    ensures r.Some? <==> prefix <= path
    ensures r.Some? ==> path == prefix + r.value
  {
    if prefix == "" then Some(path)
    else if !(prefix <= path) then None
    else Some(path[|prefix|..])
  }

  // ----- The grammar is unambiguous -----

  lemma {:induction false} SlashIndexAfter(a: string, s: string)
    requires SlashFree(a) && (s == "" || s[0] == '/')
    ensures SlashIndex(a + s) == |a|
  {
    if a == "" {
      assert a + s == s;
    } else {
      assert (a + s)[1..] == a[1..] + s && (a + s)[0] == a[0];
      SlashIndexAfter(a[1..], s);
    }
  }

  /** An id ends where the first slash begins. */
  lemma SplitAtSlash(a: string, s: string, b: string, t: string)
    requires SlashFree(a) && SlashFree(b) && (s == "" || s[0] == '/') && (t == "" || t[0] == '/')
    ensures a + s == b + t <==> a == b && s == t
  {
    SlashIndexAfter(a, s);
    SlashIndexAfter(b, t);
    assert a == (a + s)[..|a|] && b == (b + t)[..|b|];
    assert s == (a + s)[|a|..] && t == (b + t)[|b|..];
  }

  lemma SameFront(p: string, a: string, b: string)
    ensures p + a == p + b <==> a == b
  {
    assert a == (p + a)[|p|..] && b == (p + b)[|p|..];
  }

  lemma SuffixShape(op: Operation)
    ensures Suffix(op) == "" || Suffix(op)[0] == '/'
  {
  }

  lemma BehindRoot(prefix: string, arg: string, tail: string, op: Operation, id: string)
    requires SlashFree(arg) && (tail == "" || tail[0] == '/')
    ensures Matches(prefix, prefix + (ROOT + ("/" + (arg + tail))), op, id)
      <==> !op.CreateOrder? && id == arg && Suffix(op) == tail
  {
    var root := ROOT;
    SuffixShape(op);
    SameFront(prefix, root + ("/" + (arg + tail)), Template(op, id));
    SameFront(root, "/" + (arg + tail), "/" + (id + Suffix(op)));
    SameFront("/", arg + tail, id + Suffix(op));
    assert |root + ("/" + (arg + tail))| != |root|;
    if SlashFree(id) {
      SplitAtSlash(arg, tail, id, Suffix(op));
    }
  }

  lemma AtRoot(prefix: string, op: Operation, id: string)
    ensures Matches(prefix, prefix + ROOT, op, id) <==> op.CreateOrder? && id == ""
  {
  }

  /** Every template is the root, alone or followed by a slash. */
  lemma NotBehindRoot(prefix: string, rest: string, op: Operation, id: string)
    requires ROOT <= rest ==> rest != ROOT && rest[|ROOT|] != '/'
    ensures !Matches(prefix, prefix + rest, op, id)
  {
    var root := ROOT;
    SameFront(prefix, rest, Template(op, id));
    var longer := root + ("/" + (id + Suffix(op)));
    assert root <= longer && longer[|root|] == '/' && root <= root;
  }

  lemma NotUnderPrefix(prefix: string, path: string, op: Operation, id: string)
    requires !(prefix <= path)
    ensures !Matches(prefix, path, op, id)
  {
  }

  /** No path has two readings. */
  lemma Unambiguous(prefix: string, path: string, op: Operation, id: string, op': Operation, id': string)
    requires Matches(prefix, path, op, id) && Matches(prefix, path, op', id')
    ensures op == op' && id == id'
  {
    if op.CreateOrder? {
      AtRoot(prefix, op', id');
    } else {
      SuffixShape(op);
      BehindRoot(prefix, id, Suffix(op), op', id');
    }
    assert |"/pay"| != |"/cancel"|;
  }

  // ----- The requests of the API, spelled out -----

  /** The request asks for the operation on this id: its path and its HTTP method are the ones of the API. */
  ghost predicate AsksFor(prefix: string, httpMethod: string, path: string, op: Operation, id: string) {
    PathOf(prefix, path, op, id) && httpMethod == (match op
      case CreateOrder => "POST"
      case GetOrder => "GET"
      case CancelOrder => "POST"
      case PayOrder => "POST")
  }

  ghost predicate PathOf(prefix: string, path: string, op: Operation, id: string) {
    match op
    case CreateOrder => id == "" && path == prefix + "/api/v1/orders"
    case GetOrder => SlashFree(id) && path == prefix + "/api/v1/orders/" + id
    case CancelOrder => SlashFree(id) && path == prefix + "/api/v1/orders/" + id + "/cancel"
    case PayOrder => SlashFree(id) && path == prefix + "/api/v1/orders/" + id + "/pay"
  }

  lemma PathIsTemplate(prefix: string, path: string, op: Operation, id: string)
    ensures PathOf(prefix, path, op, id) <==> Matches(prefix, path, op, id)
  {
    var root := ROOT;
    assert "/api/v1/orders/" == root + "/";
    assert prefix + (root + "/") + id + Suffix(op) == prefix + (root + ("/" + (id + Suffix(op))));
    assert prefix + (root + "/") + id + "" == prefix + (root + "/") + id;
  }

  lemma AskIsMatch(prefix: string, httpMethod: string, path: string, op: Operation, id: string)
    ensures AsksFor(prefix, httpMethod, path, op, id) <==> Matches(prefix, path, op, id) && httpMethod == MethodOf(op)
  {
    PathIsTemplate(prefix, path, op, id);
  }

  // ----- ServeHTTP -----

  datatype Response =
    | Handled(op: Operation, arg: string)
    | NotAllowed(allowed: string)
    | NotFound

  function Served(op: Operation, arg: string, httpMethod: string): Response {
    if httpMethod == MethodOf(op) then Handled(op, arg) else NotAllowed(MethodOf(op))
  }

  /** The part of ServeHTTP behind the id: nothing, "/cancel" or "/pay". */
  method ServeTail(httpMethod: string, arg: string, tail: string) returns (r: Response)
    requires tail == "" || tail[0] == '/'
    ensures forall op: Operation | !op.CreateOrder? && Suffix(op) == tail :: r == Served(op, arg, httpMethod)
    ensures r.NotFound? <==> forall op: Operation :: !op.CreateOrder? ==> Suffix(op) != tail
  {
    var elem := tail;
    if |elem| == 0 {
      assert Suffix(GetOrder) == tail;
      if httpMethod == "GET" {
        return Handled(GetOrder, arg);
      }
      return NotAllowed("GET");
    }
    elem := elem[1..];
    assert tail == "/" + elem;
    if |elem| > 0 {
      if elem[0] == 'c' {
        if |elem| >= |"cancel"| && elem[..|"cancel"|] == "cancel" {
          ghost var before := elem;
          elem := elem[|"cancel"|..];
          assert before == "cancel" + elem;
          if |elem| == 0 {
            assert Suffix(CancelOrder) == tail;
            if httpMethod == "POST" {
              return Handled(CancelOrder, arg);
            }
            return NotAllowed("POST");
          }
          assert |tail| > |"/cancel"|;
        }
      } else if elem[0] == 'p' {
        if |elem| >= |"pay"| && elem[..|"pay"|] == "pay" {
          ghost var before := elem;
          elem := elem[|"pay"|..];
          assert before == "pay" + elem;
          if |elem| == 0 {
            assert Suffix(PayOrder) == tail;
            if httpMethod == "POST" {
              return Handled(PayOrder, arg);
            }
            return NotAllowed("POST");
          }
        }
      }
    }
    return NotFound;
  }

  lemma TailMatches(prefix: string, path: string, arg: string, tail: string)
    requires forall op, id :: Matches(prefix, path, op, id) <==> !op.CreateOrder? && id == arg && Suffix(op) == tail
    ensures (forall op, id :: !Matches(prefix, path, op, id)) <==>
      forall op: Operation :: !op.CreateOrder? ==> Suffix(op) != tail
  {
    if op: Operation :| !op.CreateOrder? && Suffix(op) == tail {
      assert Matches(prefix, path, op, arg);
    }
  }

  /**
   The answer to every request: the handler it asks for runs with its id; the path of an operation with
   another HTTP method is not allowed and told the right one; every other path is not found.
   */
  ghost predicate Answers(prefix: string, httpMethod: string, path: string, r: Response) {
    match r
    case Handled(op, id) => AsksFor(prefix, httpMethod, path, op, id)
    case NotAllowed(allowed) =>
      && (allowed == "GET" || allowed == "POST") && httpMethod != allowed
      && exists op, id :: PathOf(prefix, path, op, id) && AsksFor(prefix, allowed, path, op, id)
    case NotFound => forall op, id :: !PathOf(prefix, path, op, id)
  }

  lemma ServedAnswers(prefix: string, httpMethod: string, path: string, r: Response)
    requires forall op, id | Matches(prefix, path, op, id) :: r == Served(op, id, httpMethod)
    requires r.NotFound? <==> forall op, id :: !Matches(prefix, path, op, id)
    ensures Answers(prefix, httpMethod, path, r)
  {
    if r.NotFound? {
      forall op, id ensures !PathOf(prefix, path, op, id) {
        PathIsTemplate(prefix, path, op, id);
      }
    } else {
      var op, id :| Matches(prefix, path, op, id);
      PathIsTemplate(prefix, path, op, id);
      assert AsksFor(prefix, MethodOf(op), path, op, id);
    }
  }

  method ServeHttp(prefix: string, httpMethod: string, path: string) returns (r: Response)
    ensures Answers(prefix, httpMethod, path, r)
    ensures forall op, id | Matches(prefix, path, op, id) :: r == Served(op, id, httpMethod)
    ensures r.NotFound? <==> forall op, id :: !Matches(prefix, path, op, id)
  {
    r := Serve(prefix, httpMethod, path);
    ServedAnswers(prefix, httpMethod, path, r);
  }

  /** Calls exactly the handler whose template and HTTP method fit, with the id from the path. */
  method Serve(prefix: string, httpMethod: string, path: string) returns (r: Response)
    ensures forall op, id | Matches(prefix, path, op, id) :: r == Served(op, id, httpMethod)
    ensures r.NotFound? <==> forall op, id :: !Matches(prefix, path, op, id)
  {
    var cut := CutPrefix(prefix, path);
    if cut.None? || |cut.value| == 0 {
      forall op, id ensures !Matches(prefix, path, op, id) {
        if cut.None? {
          NotUnderPrefix(prefix, path, op, id);
        } else {
          NotBehindRoot(prefix, "", op, id);
        }
      }
      return NotFound;
    }
    var elem := cut.value;
    ghost var rest := elem;
    if elem[0] == '/' && |elem| >= |ROOT| && elem[..|ROOT|] == ROOT {
      elem := elem[|ROOT|..];
      assert rest == ROOT + elem;
      if |elem| == 0 {
        forall op, id ensures Matches(prefix, path, op, id) <==> op.CreateOrder? && id == "" {
          AtRoot(prefix, op, id);
        }
        assert Matches(prefix, path, CreateOrder, "");
        if httpMethod == "POST" {
          return Handled(CreateOrder, "");
        }
        return NotAllowed("POST");
      }
      if elem[0] == '/' {
        elem := elem[1..];
        var idx := SlashIndex(elem);
        var arg := elem[..idx];
        elem := elem[idx..];
        assert rest == ROOT + ("/" + (arg + elem));
        forall op, id ensures Matches(prefix, path, op, id) <==> !op.CreateOrder? && id == arg && Suffix(op) == elem {
          BehindRoot(prefix, arg, elem, op, id);
        }
        TailMatches(prefix, path, arg, elem);
        r := ServeTail(httpMethod, arg, elem);
        return;
      }
    }
    assert ROOT <= rest ==> rest == ROOT + rest[|ROOT|..];
    forall op, id ensures !Matches(prefix, path, op, id) {
      NotBehindRoot(prefix, rest, op, id);
    }
    return NotFound;
  }

  /** A handler runs exactly for its own template and HTTP method, with the id that the path names. */
  lemma HandledIffMatch(prefix: string, httpMethod: string, path: string, r: Response, op: Operation, id: string)
    requires forall o, i | Matches(prefix, path, o, i) :: r == Served(o, i, httpMethod)
    requires r.NotFound? <==> forall o, i :: !Matches(prefix, path, o, i)
    ensures r == Handled(op, id) <==> Matches(prefix, path, op, id) && httpMethod == MethodOf(op)
    ensures r == Handled(op, id) <==> AsksFor(prefix, httpMethod, path, op, id)
  {
    AskIsMatch(prefix, httpMethod, path, op, id);
  }

  // ----- FindPath -----

  datatype Route = Route(operationId: string, pathPattern: string, args: seq<string>)

  function OperationId(op: Operation): string {
    match op
    case CreateOrder => "createOrder"
    case GetOrder => "getOrder"
    case CancelOrder => "cancelOrder"
    case PayOrder => "payOrder"
  }

  function PathPattern(op: Operation): string {
    match op
    case CreateOrder => "/api/v1/orders"
    case GetOrder => "/api/v1/orders/{order_uuid}"
    case CancelOrder => "/api/v1/orders/{order_uuid}/cancel"
    case PayOrder => "/api/v1/orders/{order_uuid}/pay"
  }

  function RouteOf(op: Operation, arg: string): Route {
    Route(OperationId(op), PathPattern(op), if op.CreateOrder? then [] else [arg])
  }

  function Found(op: Operation, arg: string, httpMethod: string): Option<Route> {
    if httpMethod == MethodOf(op) then Some(RouteOf(op, arg)) else None
  }

  /** The part of FindPath behind the id. */
  method FindTail(httpMethod: string, arg: string, tail: string) returns (r: Option<Route>)
    requires tail == "" || tail[0] == '/'
    ensures forall op: Operation | !op.CreateOrder? && Suffix(op) == tail :: r == Found(op, arg, httpMethod)
    ensures (forall op: Operation :: !op.CreateOrder? ==> Suffix(op) != tail) ==> r.None?
  {
    var elem := tail;
    if |elem| == 0 {
      assert Suffix(GetOrder) == tail;
      if httpMethod == "GET" {
        return Some(Route("getOrder", "/api/v1/orders/{order_uuid}", [arg]));
      }
      return None;
    }
    elem := elem[1..];
    assert tail == "/" + elem;
    if |elem| > 0 {
      if elem[0] == 'c' {
        if |elem| >= |"cancel"| && elem[..|"cancel"|] == "cancel" {
          ghost var before := elem;
          elem := elem[|"cancel"|..];
          assert before == "cancel" + elem;
          if |elem| == 0 {
            assert Suffix(CancelOrder) == tail;
            if httpMethod == "POST" {
              return Some(Route("cancelOrder", "/api/v1/orders/{order_uuid}/cancel", [arg]));
            }
            return None;
          }
          assert |tail| > |"/cancel"|;
        }
      } else if elem[0] == 'p' {
        if |elem| >= |"pay"| && elem[..|"pay"|] == "pay" {
          ghost var before := elem;
          elem := elem[|"pay"|..];
          assert before == "pay" + elem;
          if |elem| == 0 {
            assert Suffix(PayOrder) == tail;
            if httpMethod == "POST" {
              return Some(Route("payOrder", "/api/v1/orders/{order_uuid}/pay", [arg]));
            }
            return None;
          }
        }
      }
    }
    return None;
  }

  /** The route found, if any, is the one of the operation that the request asks for. */
  ghost predicate Names(prefix: string, httpMethod: string, path: string, r: Option<Route>) {
    && (forall id :: AsksFor(prefix, httpMethod, path, CreateOrder, id) ==>
         r == Some(Route("createOrder", "/api/v1/orders", [])))
    && (forall id :: AsksFor(prefix, httpMethod, path, GetOrder, id) ==>
         r == Some(Route("getOrder", "/api/v1/orders/{order_uuid}", [id])))
    && (forall id :: AsksFor(prefix, httpMethod, path, CancelOrder, id) ==>
         r == Some(Route("cancelOrder", "/api/v1/orders/{order_uuid}/cancel", [id])))
    && (forall id :: AsksFor(prefix, httpMethod, path, PayOrder, id) ==>
         r == Some(Route("payOrder", "/api/v1/orders/{order_uuid}/pay", [id])))
    && (r.Some? ==> exists op, id :: AsksFor(prefix, httpMethod, path, op, id))
  }

  lemma FoundNames(prefix: string, httpMethod: string, path: string, r: Option<Route>)
    requires forall op, id | Matches(prefix, path, op, id) :: r == Found(op, id, httpMethod)
    requires (forall op, id :: !Matches(prefix, path, op, id)) ==> r.None?
    ensures Names(prefix, httpMethod, path, r)
  {
    forall op, id
      ensures AsksFor(prefix, httpMethod, path, op, id) <==> Matches(prefix, path, op, id) && httpMethod == MethodOf(op)
    {
      AskIsMatch(prefix, httpMethod, path, op, id);
    }
  }

  method FindPath(prefix: string, httpMethod: string, path: string) returns (r: Option<Route>)
    ensures Names(prefix, httpMethod, path, r)
    ensures forall op, id | Matches(prefix, path, op, id) :: r == Found(op, id, httpMethod)
    ensures (forall op, id :: !Matches(prefix, path, op, id)) ==> r.None?
  {
    r := Find(prefix, httpMethod, path);
    FoundNames(prefix, httpMethod, path, r);
  }

  /** The part of FindPath for the root itself. */
  method FindRoot(httpMethod: string) returns (r: Option<Route>)
    ensures r == Found(CreateOrder, "", httpMethod)
  {
    if httpMethod == "POST" {
      return Some(Route("createOrder", "/api/v1/orders", []));
    }
    return None;
  }

  /** The part of FindPath behind the root and a slash: the id and what follows it. */
  method FindArg(ghost prefix: string, httpMethod: string, ghost path: string, behind: string)
    returns (r: Option<Route>)
    requires path == prefix + (ROOT + ("/" + behind))
    ensures forall op, id | Matches(prefix, path, op, id) :: r == Found(op, id, httpMethod)
    ensures (forall op, id :: !Matches(prefix, path, op, id)) ==> r.None?
  {
    var elem := behind;
    var idx := SlashIndex(elem);
    var arg := elem[..idx];
    elem := elem[idx..];
    assert behind == arg + elem;
    forall op, id ensures Matches(prefix, path, op, id) <==> !op.CreateOrder? && id == arg && Suffix(op) == elem {
      BehindRoot(prefix, arg, elem, op, id);
    }
    TailMatches(prefix, path, arg, elem);
    r := FindTail(httpMethod, arg, elem);
  }

  /** Finds exactly the operation whose template and HTTP method fit. */
  method Find(prefix: string, httpMethod: string, path: string) returns (r: Option<Route>)
    ensures forall op, id | Matches(prefix, path, op, id) :: r == Found(op, id, httpMethod)
    ensures (forall op, id :: !Matches(prefix, path, op, id)) ==> r.None?
  {
    var cut := CutPrefix(prefix, path);
    if cut.None? {
      forall op, id ensures !Matches(prefix, path, op, id) {
        NotUnderPrefix(prefix, path, op, id);
      }
      return None;
    }
    var elem := cut.value;
    ghost var rest := elem;
    if |elem| > 0 && elem[0] == '/' && |elem| >= |ROOT| && elem[..|ROOT|] == ROOT {
      elem := elem[|ROOT|..];
      assert rest == ROOT + elem;
      if |elem| == 0 {
        forall op, id ensures Matches(prefix, path, op, id) <==> op.CreateOrder? && id == "" {
          AtRoot(prefix, op, id);
        }
        assert Matches(prefix, path, CreateOrder, "");
        r := FindRoot(httpMethod);
        return;
      }
      if elem[0] == '/' {
        elem := elem[1..];
        assert rest == ROOT + ("/" + elem);
        r := FindArg(prefix, httpMethod, path, elem);
        return;
      }
    }
    assert ROOT <= rest ==> rest == ROOT + rest[|ROOT|..];
    forall op, id ensures !Matches(prefix, path, op, id) {
      NotBehindRoot(prefix, rest, op, id);
    }
    return None;
  }

  // ----- Both routers, and the client -----

  /** FindPath names an operation with its argument exactly when ServeHTTP calls that operation's handler with it. */
  method RoutersAgree(prefix: string, httpMethod: string, path: string) returns (served: Response, found: Option<Route>)
    ensures found.Some? <==> served.Handled?
    ensures served.Handled? ==> found == Some(RouteOf(served.op, served.arg))
    ensures Answers(prefix, httpMethod, path, served) && Names(prefix, httpMethod, path, found)
    ensures forall op, id :: served == Handled(op, id) <==> AsksFor(prefix, httpMethod, path, op, id)
  {
    served := ServeHttp(prefix, httpMethod, path);
    found := FindPath(prefix, httpMethod, path);
    if op, id :| Matches(prefix, path, op, id) {
      forall o, i | Matches(prefix, path, o, i) ensures o == op && i == id {
        Unambiguous(prefix, path, op, id, o, i);
      }
      assert served == Served(op, id, httpMethod) && found == Found(op, id, httpMethod);
    }
    forall op, id ensures served == Handled(op, id) <==> AsksFor(prefix, httpMethod, path, op, id) {
      HandledIffMatch(prefix, httpMethod, path, served, op, id);
    }
  }

  /** The path parts that the generated client appends to its server path. */
  function ClientPath(serverPath: string, op: Operation, uuid: string): string {
    match op
    case CreateOrder => serverPath + "/api/v1/orders"
    case GetOrder => serverPath + "/api/v1/orders/" + uuid
    case CancelOrder => serverPath + "/api/v1/orders/" + uuid + "/cancel"
    case PayOrder => serverPath + "/api/v1/orders/" + uuid + "/pay"
  }

  /** The HTTP method that the generated client sends. */
  function ClientMethod(op: Operation): string {
    match op
    case CreateOrder => "POST"
    case GetOrder => "GET"
    case CancelOrder => "POST"
    case PayOrder => "POST"
  }

  /** Every path the client builds matches its own operation and id, and nothing else. */
  lemma ClientPathMatches(prefix: string, op: Operation, uuid: string, op': Operation, id': string)
    requires SlashFree(uuid)
    ensures Matches(prefix, ClientPath(prefix, op, uuid), op', id')
      <==> op' == op && id' == if op.CreateOrder? then "" else uuid
  {
    var root := ROOT;
    assert "/api/v1/orders/" == root + "/";
    var path := prefix + (root + ("/" + (uuid + Suffix(op))));
    if op.CreateOrder? {
      AtRoot(prefix, op', id');
    } else {
      assert ClientPath(prefix, op, uuid) == path by {
        assert prefix + (root + "/") + uuid + Suffix(op) == path;
        assert uuid + "" == uuid;
      }
      SuffixShape(op);
      BehindRoot(prefix, uuid, Suffix(op), op', id');
      assert |"/pay"| != |"/cancel"|;
    }
  }

  /** A request the client sends is served by its own operation, with its own id. */
  method ClientReachesHandler(prefix: string, op: Operation, uuid: string) returns (r: Response)
    requires SlashFree(uuid)
    ensures r == Handled(op, if op.CreateOrder? then "" else uuid)
  {
    ClientPathMatches(prefix, op, uuid, op, if op.CreateOrder? then "" else uuid);
    r := ServeHttp(prefix, ClientMethod(op), ClientPath(prefix, op, uuid));
  }
}
