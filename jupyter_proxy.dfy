/** The dynamic Jupyter proxy of server/src/app.ts: a process-wide memo
    from container id to backend URL, filled on a miss by inspecting the
    container, and the path rewrite applied before forwarding. Container
    inspection is a collaborator; its answer is passed in. */
module JupyterProxy {
  import opened Common

  const RoutePrefix := "/jupyter/"
  const BackendPort := "8888"
  const NoAddressMessage := "容器未分配 IP 地址"
  const FailureStatus := 500

  /** What `container.inspect()` gave: the container's `IPAddress`, which may
      be missing, or an error (unknown container, unreachable runtime). */
  datatype Inspection = Inspected(ipAddress: Option<string>) | InspectFailed(message: string)

  /** What the middleware does with a request: forward it to a target with a
      rewritten path, or answer with a status and a body. */
  datatype Action = Forward(target: string, path: string) | Answer(status: int, body: string)

  datatype Request = Request(containerId: string, path: string, inspection: Inspection)

  function TargetFor(ip: string): string
  {
    "http://" + ip + ":" + BackendPort
  }

  function FailureBody(containerId: string, message: string): string
  {
    "容器 " + containerId + " 不存在或未启动: " + message
  }

  /** The `pathRewrite` rule `^/jupyter/{containerId}` -> "". */
  function RewritePath(path: string, containerId: string): (r: string)
  {
    var prefix := RoutePrefix + containerId;
    if StartsWith(path, prefix) then path[|prefix|..] else path
  }

  /** The rewrite removes exactly the leading `/jupyter/{id}` and leaves any
      other path alone. */
  lemma RewriteRemovesPrefix(path: string, containerId: string)
    ensures var r := RewritePath(path, containerId);
      if StartsWith(path, RoutePrefix + containerId)
      then RoutePrefix + containerId + r == path
      else r == path
  {
  }

  /** The forwarded path of `/jupyter/{id}{rest}` is `rest`. */
  lemma RewriteOfRoutedPath(containerId: string, rest: string)
    ensures RewritePath(RoutePrefix + containerId + rest, containerId) == rest
  {
  }

  /** `containerRoutes[id]` is truthy: present and not the empty string. */
  predicate IsCached(routes: map<string, string>, containerId: string)
  {
    containerId in routes && routes[containerId] != ""
  }

  /** The middleware on one request, as a function of the memo: the new memo
      and what happens to the request. */
  function Serve(routes: map<string, string>, req: Request): (map<string, string>, Action)
  {
    var id := req.containerId;
    if IsCached(routes, id) then
      (routes, Forward(routes[id], RewritePath(req.path, id)))
    else
      match req.inspection
      case InspectFailed(m) => (routes, Answer(FailureStatus, FailureBody(id, m)))
      case Inspected(ip) =>
        if ip.None? || ip.value == "" then (routes, Answer(FailureStatus, FailureBody(id, NoAddressMessage)))
        else
          var target := TargetFor(ip.value);
          (routes[id := target], Forward(target, RewritePath(req.path, id)))
  }

  /** Every stored target is a backend URL, so none is falsy. */
  ghost predicate TargetsWellFormed(routes: map<string, string>)
  {
    forall id :: id in routes ==> StartsWith(routes[id], "http://") && routes[id] != ""
  }

  /** A cache hit forwards to the stored target, whatever the container
      would report now, and leaves the memo as it was. */
  lemma CacheHitIgnoresInspection(routes: map<string, string>, req: Request)
    requires TargetsWellFormed(routes) && req.containerId in routes
    ensures Serve(routes, req) ==
      (routes, Forward(routes[req.containerId], RewritePath(req.path, req.containerId)))
  {
  }

  /** A miss whose container has an address stores `http://{ip}:8888` under
      the id and forwards there. */
  lemma MissStoresBackend(routes: map<string, string>, req: Request, ip: string)
    requires req.containerId !in routes
    requires req.inspection == Inspected(Some(ip)) && ip != ""
    ensures Serve(routes, req).0 == routes[req.containerId := "http://" + ip + ":8888"]
    ensures Serve(routes, req).1 == Forward("http://" + ip + ":8888", RewritePath(req.path, req.containerId))
  {
    assert TargetFor(ip) == "http://" + ip + ":8888";
  }

  /** `t` occurs in `s` at index `i`. */
  predicate OccursAt(s: string, t: string, i: int)
  {
    0 <= i <= |s| - |t| && s[i..i + |t|] == t
  }

  /** A failed inspection or a missing address answers 500 with a body that
      names the container id, and stores nothing. */
  lemma FailureNamesContainer(routes: map<string, string>, req: Request)
    requires !IsCached(routes, req.containerId)
    requires req.inspection.InspectFailed? ||
             req.inspection.ipAddress.None? || req.inspection.ipAddress.value == ""
    ensures Serve(routes, req).0 == routes
    ensures Serve(routes, req).1.Answer? && Serve(routes, req).1.status == 500
    ensures exists i :: OccursAt(Serve(routes, req).1.body, req.containerId, i)
  {
    var body := Serve(routes, req).1.body;
    var prefix := "容器 ";
    assert body[|prefix|..|prefix| + |req.containerId|] == req.containerId;
    assert OccursAt(body, req.containerId, |prefix|);
  }

  /** The memo after serving a sequence of requests. */
  function ServeAll(routes: map<string, string>, reqs: seq<Request>): map<string, string>
    decreases |reqs|
  {
    if reqs == [] then routes else ServeAll(Serve(routes, reqs[0]).0, reqs[1..])
  }

  /** One request never removes or overwrites an entry and keeps targets
      well formed. */
  lemma ServeExtends(routes: map<string, string>, req: Request)
    requires TargetsWellFormed(routes)
    ensures var next := Serve(routes, req).0;
      TargetsWellFormed(next) &&
      forall id :: id in routes ==> id in next && next[id] == routes[id]
  {
  }

  /** The memo only grows: once an id is stored, every later request keeps
      the same target for it. */
  lemma {:induction false} CacheIsMonotone(routes: map<string, string>, reqs: seq<Request>)
    requires TargetsWellFormed(routes)
    ensures TargetsWellFormed(ServeAll(routes, reqs))
    ensures forall id :: id in routes ==> id in ServeAll(routes, reqs) && ServeAll(routes, reqs)[id] == routes[id]
    decreases |reqs|
  {
    if reqs != [] {
      ServeExtends(routes, reqs[0]);
      CacheIsMonotone(Serve(routes, reqs[0]).0, reqs[1..]);
    }
  }

  /** After any history, a request for a stored id is forwarded to the target
      it was first given, with no inspection taken into account. */
  lemma StoredTargetIsFinal(routes: map<string, string>, reqs: seq<Request>, req: Request)
    requires TargetsWellFormed(routes) && req.containerId in routes
    ensures Serve(ServeAll(routes, reqs), req).1 ==
      Forward(routes[req.containerId], RewritePath(req.path, req.containerId))
  {
    CacheIsMonotone(routes, reqs);
  }

  /** The process-global memo and the ids the middleware has inspected. */
  class Router {
    var routes: map<string, string>
    var inspected: seq<string>

    ghost predicate Valid()
      reads this
    {
      TargetsWellFormed(routes)
    }

    constructor ()
      ensures Valid() && routes == map[] && inspected == []
    {
      routes := map[];
      inspected := [];
    }

    /** The `/jupyter/:containerId/` middleware. A hit neither inspects nor
        changes the memo; a miss inspects once and stores only a usable
        target. */
    method Handle(req: Request) returns (action: Action)
      requires Valid()
      modifies this
      ensures Valid()
      ensures (routes, action) == Serve(old(routes), req)
      ensures inspected ==
        if IsCached(old(routes), req.containerId) then old(inspected) else old(inspected) + [req.containerId]
    {
      var id := req.containerId;
      if id in routes && routes[id] != "" {
        return Forward(routes[id], RewritePath(req.path, id));
      }
      inspected := inspected + [id];
      match req.inspection {
        case InspectFailed(m) =>
          action := Answer(FailureStatus, FailureBody(id, m));
        case Inspected(ip) =>
          if ip.None? || ip.value == "" {
            action := Answer(FailureStatus, FailureBody(id, NoAddressMessage));
          } else {
            var target := TargetFor(ip.value);
            ServeExtends(routes, req);
            routes := routes[id := target];
            action := Forward(target, RewritePath(req.path, id));
          }
      }
    }
  }
}
