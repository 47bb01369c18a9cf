/**
 Deployment-stage navigation guard of the Glass dashboard.

 On each navigation it guards (top-level or child route) the guard reads
 the cluster's deployment status and either lets the navigation through or
 sends the browser to a fixed URL for the current stage. An error object
 from a failing status query is swallowed and replaced by a status whose
 stage is `unknown`, which the guard lets through (fail-open).

 The asynchronous status fetch is represented by its outcome, a `Result`,
 and the router's `UrlTree` by the URL string it was parsed from.
 */
module StatusRouteGuard {
  import opened Wrappers

  type Url = string

  /** The deployment stages the backend reports. `Other` stands for every
      stage value the guard's `switch` has no case for. */
  datatype Stage =
    | Unknown
    | Bootstrapping
    | Bootstrapped
    | Ready
    | None
    | Other

  /** The `deployment_state` part of the status the backend returns. */
  datatype Status = Status(lastModified: string, stage: Stage)

  /** An error object raised by the status query; all the guard looks at
      is whether it carries a callable `preventDefault`. */
  datatype QueryError = QueryError(preventDefaultIsFunction: bool)

  /** What the guard answers for one navigation: `true`, or a redirect. */
  datatype Decision = Allow | Redirect(target: Url)

  /** The guard's answer together with whether it suppressed the error
      notification by calling `preventDefault` on a query error. */
  datatype Activation = Activation(decision: Decision, notificationSuppressed: bool)

  // ---------------------------------------------------------------------
  // Reference policy: the stage-to-URL table the `switch` encodes.
  // ---------------------------------------------------------------------

  /** The navigation rule of one stage: either everything is let through,
      or only `allowed` is, and everything else goes to `target`. */
  datatype Rule = Unrestricted | Restricted(allowed: seq<Url>, target: Url)

  function Policy(stage: Stage): Rule
  {
    match stage
    case Bootstrapping => Restricted(["/installer/create/bootstrap"], "/installer/create/bootstrap")
    case Bootstrapped => Restricted(["/installer/create/deployment", "/dashboard"], "/installer/create/deployment")
    case Ready => Restricted(["/dashboard"], "/dashboard")
    case None => Restricted(["/installer/welcome", "/installer/install-mode", "/installer/create/bootstrap"], "/installer")
    case _ => Unrestricted
  }

  /** The decision a rule prescribes for a requested URL. */
  function Apply(rule: Rule, url: Url): Decision
  {
    match rule
    case Unrestricted => Allow
    case Restricted(allowed, target) => if url in allowed then Allow else Redirect(target)
  }

  // ---------------------------------------------------------------------
  // The guard.
  // ---------------------------------------------------------------------

  /** `Array.prototype.includes` on a list of strings: strict equality
      against each element in turn. */
  function Includes(urls: seq<Url>, url: Url): (r: bool)
    ensures r <==> exists i :: 0 <= i < |urls| && urls[i] == url
  {
    if urls == [] then false
    else if urls[0] == url then true
    else Includes(urls[1..], url)
  }

  /** The `switch` over the deployment stage, one case per branch of the
      source; `url` is the requested URL (`state.url`). */
  function Decide(stage: Stage, url: Url): (r: Decision)
    ensures r == Apply(Policy(stage), url)
  {
    match stage
    case Bootstrapping =>
      var target := "/installer/create/bootstrap";
      if target == url then Allow else Redirect(target)
    case Bootstrapped =>
      var urls := ["/installer/create/deployment", "/dashboard"];
      if Includes(urls, url) then Allow else Redirect(urls[0])
    case Ready =>
      var target := "/dashboard";
      if target == url then Allow else Redirect(target)
    case None =>
      if Includes(["/installer/welcome", "/installer/install-mode", "/installer/create/bootstrap"], url)
      then Allow
      else Redirect("/installer")
    case _ => Allow
  }

  /** The `catchError` handler: the error is replaced by a synthetic status
      whose stage is `unknown`; `preventDefault` is called (the second
      component) only when the error has it as a function. */
  function CatchError(err: QueryError): (r: (Status, bool))
    ensures r.0.stage == Unknown && Policy(r.0.stage) == Unrestricted
    ensures r.1 <==> err.preventDefaultIsFunction
  {
    (Status("now", Unknown), err.preventDefaultIsFunction)
  }

  /** `canActivate`: resolve the status query (substituting on failure),
      then decide on the requested URL. */
  function CanActivate(query: Result<Status, QueryError>, url: Url): (r: Activation)
    ensures query.Failure? ==> r.decision == Allow
    ensures query.Success? ==> r.decision == Apply(Policy(query.value.stage), url)
    ensures r.notificationSuppressed <==> query.Failure? && query.error.preventDefaultIsFunction
  {
    match query
    case Success(status) => Activation(Decide(status.stage, url), false)
    case Failure(err) =>
      var (status, suppressed) := CatchError(err);
      Activation(Decide(status.stage, url), suppressed)
  }

  /** `canActivateChild` delegates to `canActivate` unchanged. */
  function CanActivateChild(query: Result<Status, QueryError>, url: Url): (r: Activation)
    ensures r == CanActivate(query, url)
  {
    CanActivate(query, url)
  }
}
