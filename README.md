# Deployment-stage navigation guard (Glass dashboard)

This project models the route guard of the Glass web dashboard. It can guard top-level
and child routes. On each navigation it reads the cluster's deployment
status. It then either lets the navigation through or sends the browser to a fixed URL
for the current deployment stage:

| stage | URLs let through | every other URL goes to |
|---|---|---|
| `bootstrapping` | `/installer/create/bootstrap` | `/installer/create/bootstrap` |
| `bootstrapped` | `/installer/create/deployment`, `/dashboard` | `/installer/create/deployment` |
| `ready` | `/dashboard` | `/dashboard` |
| `none` | `/installer/welcome`, `/installer/install-mode`, `/installer/create/bootstrap` | `/installer` |
| `unknown`, any other value | everything | — |

When the status query fails with an error object, the guard swallows the error. It calls `preventDefault`
only when the error has that as a function, which suppresses the error notification.
It then carries on with a made-up status whose stage is `unknown`, so every navigation
is let through (fail-open).

Files:

- `wrappers.dfy` — module `Wrappers`: the `Result` of the status query.
- `status_route_guard.dfy` — module `StatusRouteGuard`. It holds the data model
  (`Stage`, `Status`, `QueryError`, `Decision`, `Activation`) and the guard itself
  (`Includes`, `Decide`, `CatchError`, `CanActivate`, `CanActivateChild`). `Decide`
  follows the source's `switch` branch by branch. Its contract ties it to an
  independent reference table, `Policy`/`Apply`: the stage's rule and the redirect
  rule "allowed means `Allow`, otherwise go to the target".
- `guard_properties.dfy` — module `GuardProperties`. It proves the exact allowed set and
  target of each stage, fail-open on query failure, and exact-match URL comparison. It
  also proves what happens when the router follows the guard's redirects (`Navigate`).
  For `bootstrapping`, `bootstrapped` and `ready`, one redirect always lands. For
  `none`, a URL outside the list never lands as far as the guard alone is concerned,
  because the guard redirects `/installer` to itself (the router's own redirects for
  `/installer` are not modelled).

Everything is a pure function, as in the source. The source's `switch` has no loops
and no mutable state. Its locals are each assigned once per branch. Determinism holds
by construction: `Decide` is a function of the stage and the requested URL alone, so
calling the guard twice with the same stage and URL gives the same decision.

The guard compares `state.url` with each allowed URL by exact string equality (`===`
and `Array.prototype.includes`). So an allowed URL with a query string, fragment,
trailing slash or sub-path appended is redirected (`ExtendedAllowedUrlIsRedirected`).

Unlike the other three stages, `none` redirects to `/installer`, which is not in its
own list (`RedirectTargets`, `NoneRedirectIsNotFixed`).

## Model

| member | source | states |
|---|---|---|
| `StatusRouteGuard.Includes` | src/glass/src/app/shared/services/status-route-guard.service.ts:59-60 | list membership as used by the guard is true exactly when some element equals the URL exactly |
| `StatusRouteGuard.Decide` | src/glass/src/app/shared/services/status-route-guard.service.ts:49-89 | the decision for a stage and URL is the stage's rule applied to the URL: stages with no case allow everything; otherwise an allowed URL gives `Allow` and any other gives a redirect to the stage's one target |
| `StatusRouteGuard.CatchError` | src/glass/src/app/shared/services/status-route-guard.service.ts:31-44 | a failed query is replaced by a status of stage `unknown`, whose rule allows everything; `preventDefault` is called exactly when the error has it as a function |
| `StatusRouteGuard.CanActivate` | src/glass/src/app/shared/services/status-route-guard.service.ts:26-93 | on query failure the answer is `Allow` for every URL; on success it is the reported stage's rule applied to the URL; the error notification is suppressed only for a failed query whose error has a callable `preventDefault` |
| `StatusRouteGuard.CanActivateChild` | src/glass/src/app/shared/services/status-route-guard.service.ts:95-100 | child-route activation gives the same answer as top-level activation for the same status and URL |
| `GuardProperties.BootstrappingAllowsOnlyBootstrap` | src/glass/src/app/shared/services/status-route-guard.service.ts:50-57 | `bootstrapping` allows exactly `/installer/create/bootstrap` and redirects every other URL there |
| `GuardProperties.BootstrappedAllowsDeploymentAndDashboard` | src/glass/src/app/shared/services/status-route-guard.service.ts:58-65 | `bootstrapped` allows exactly `/installer/create/deployment` and `/dashboard` and redirects every other URL to the first of them |
| `GuardProperties.ReadyAllowsOnlyDashboard` | src/glass/src/app/shared/services/status-route-guard.service.ts:66-73 | `ready` allows exactly `/dashboard` and redirects every other URL there |
| `GuardProperties.NoneAllowsOnlyInstallerPages` | src/glass/src/app/shared/services/status-route-guard.service.ts:74-86 | `none` allows exactly `/installer/welcome`, `/installer/install-mode` and `/installer/create/bootstrap` and redirects every other URL to `/installer` |
| `GuardProperties.UnmatchedStagesAllowAll` | src/glass/src/app/shared/services/status-route-guard.service.ts:87-89 | `unknown` and every stage without a case allow every URL |
| `GuardProperties.QueryFailureFailsOpen` | src/glass/src/app/shared/services/status-route-guard.service.ts:31-44 | a failed status query allows every URL, for top-level and child routes alike |
| `GuardProperties.RedirectTargets` | src/glass/src/app/shared/services/status-route-guard.service.ts:51-84 | three stages redirect to the first URL they allow; `none` redirects to `/installer`, which it does not allow |
| `GuardProperties.ExtendedAllowedUrlIsRedirected` | src/glass/src/app/shared/services/status-route-guard.service.ts:52-80 | matching is exact: an allowed URL with any non-empty text appended is redirected to the stage's target |
| `GuardProperties.RedirectTargetIsAllowed` | src/glass/src/app/shared/services/status-route-guard.service.ts:51-71 | for `bootstrapping`, `bootstrapped` and `ready`, deciding again on the redirect target allows it |
| `GuardProperties.SettlesAfterOneRedirect` | src/glass/src/app/shared/services/status-route-guard.service.ts:50-73 | for those three stages a navigation that follows redirects lands after at most one, on the requested URL if allowed and on the stage's target otherwise |
| `GuardProperties.NoneRedirectIsNotFixed` | src/glass/src/app/shared/services/status-route-guard.service.ts:74-86 | under `none` every redirect goes to `/installer`, and `/installer` is itself redirected to `/installer` |
| `GuardProperties.NoneNeverSettles` | src/glass/src/app/shared/services/status-route-guard.service.ts:74-86 | under `none` a URL outside the allowed list is still being redirected to `/installer` however many redirects are followed |

## Left out

- The rxjs `Observable` pipeline and the asynchronous status fetch: the fetch is represented by its outcome, a `Result`.
- CatchError: the error is taken to be an object. A `null` or `undefined` error, or a `preventDefault` that throws, makes the handler itself throw, so the navigation fails instead of failing open. `QueryError` does not represent these cases, so `CatchError`, `CanActivate` and `QueryFailureFailsOpen` do not cover them.
- The diagnostic `console.info` line: it is output only.
- `router.parseUrl`: a redirect is represented by the URL string it parses.
- The router configuration: whatever `/installer` resolves to before guards run is not part of this model. `NoneNeverSettles` holds for the guard alone.
- `StatusService` and `StatusStageEnum`: their source is not part of this model. The stage is an abstract datatype holding the stages the guard names, plus one constructor, `Other`, for every value it has no case for.
- The `last_modified` timestamp: the guard never reads it. The substituted status carries the constant `"now"`.
- `orch.service.ts`, the capacity dashboard widget and the `gravel` node API: these are HTTP wrappers and presentation code with no decision logic.
