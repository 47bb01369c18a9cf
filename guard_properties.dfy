/**
 Properties of the deployment-stage guard: the exact allowed set and
 redirect target of each stage, exact-match URL comparison, and what
 happens when the router follows the guard's redirects.
 */
module GuardProperties {
  import opened Wrappers
  import opened StatusRouteGuard

  // ---------------------------------------------------------------------
  // Per-stage behaviour.
  // ---------------------------------------------------------------------

  lemma BootstrappingAllowsOnlyBootstrap(url: Url)
    ensures Decide(Bootstrapping, url) ==
      if url == "/installer/create/bootstrap" then Allow else Redirect("/installer/create/bootstrap")
  {
  }

  lemma BootstrappedAllowsDeploymentAndDashboard(url: Url)
    ensures Decide(Bootstrapped, url) ==
      if url == "/installer/create/deployment" || url == "/dashboard" then Allow
      else Redirect("/installer/create/deployment")
  {
  }

  lemma ReadyAllowsOnlyDashboard(url: Url)
    ensures Decide(Ready, url) == if url == "/dashboard" then Allow else Redirect("/dashboard")
  {
  }

  lemma NoneAllowsOnlyInstallerPages(url: Url)
    ensures Decide(None, url) ==
      if url == "/installer/welcome" || url == "/installer/install-mode" || url == "/installer/create/bootstrap"
      then Allow
      else Redirect("/installer")
  {
  }

  /** Stages without a case of their own, `unknown` among them, let
      every URL through. */
  lemma UnmatchedStagesAllowAll(stage: Stage, url: Url)
    requires stage.Unknown? || stage.Other?
    ensures Decide(stage, url) == Allow
  {
  }

  /** A failed status query lets every navigation through, whatever
      stage the cluster is actually in. */
  lemma QueryFailureFailsOpen(err: QueryError, url: Url)
    ensures CanActivate(Failure(err), url).decision == Allow
    ensures CanActivateChild(Failure(err), url).decision == Allow
  {
  }

  /** Three stages redirect to the first URL they allow; `none` redirects
      to `/installer`, which it does not allow. */
  lemma RedirectTargets(stage: Stage)
    requires Policy(stage).Restricted?
    ensures stage != None ==> Policy(stage).target == Policy(stage).allowed[0]
    ensures stage == None ==> Policy(stage).target == "/installer" && "/installer" !in Policy(stage).allowed
  {
  }

  // ---------------------------------------------------------------------
  // Exact string comparison.
  // ---------------------------------------------------------------------

  /** Appending anything to `url` never yields a string that differs from
      `url` at a position inside `url`. */
  lemma NoExtensionReaches(url: Url, other: Url, k: nat)
    requires k < |url| && k < |other| && url[k] != other[k]
    ensures forall suffix :: url + suffix != other
  {
  }

  /** URLs are compared for exact equality: an allowed URL with anything
      appended to it (a trailing slash, a query string, a fragment, a
      sub-path) is redirected like any other URL. */
  lemma ExtendedAllowedUrlIsRedirected(stage: Stage, url: Url, suffix: string)
    requires Policy(stage).Restricted? && url in Policy(stage).allowed
    requires suffix != []
    ensures Decide(stage, url + suffix) == Redirect(Policy(stage).target)
  {
    // No allowed URL is a proper prefix of another allowed URL of the same
    // stage: each shorter one differs from each longer one at some position.
    match stage
    case Bootstrapped =>
      if url == "/dashboard" {
        NoExtensionReaches(url, "/installer/create/deployment", 1);
      }
    case None =>
      if url == "/installer/welcome" {
        NoExtensionReaches(url, "/installer/install-mode", 11);
        NoExtensionReaches(url, "/installer/create/bootstrap", 11);
      } else if url == "/installer/install-mode" {
        NoExtensionReaches(url, "/installer/create/bootstrap", 11);
      }
    case _ =>
  }

  // ---------------------------------------------------------------------
  // Following redirects.
  // ---------------------------------------------------------------------

  /** Where a navigation ends when every redirect starts a new navigation
      that passes through the guard again: it lands on a URL, or is still
      being redirected when `hops` runs out. */
  datatype Outcome = Landed(url: Url) | StillRedirecting(url: Url)

  function Navigate(stage: Stage, url: Url, hops: nat): Outcome
    decreases hops
  {
    match Decide(stage, url)
    case Allow => Landed(url)
    case Redirect(target) =>
      if hops == 0 then StillRedirecting(target) else Navigate(stage, target, hops - 1)
  }

  /** For `bootstrapping`, `bootstrapped` and `ready` the redirect target is
      a fixed point: deciding again on it lets the navigation through. */
  lemma RedirectTargetIsAllowed(stage: Stage, url: Url)
    requires stage in {Bootstrapping, Bootstrapped, Ready}
    ensures Decide(stage, url).Redirect? ==> Decide(stage, Decide(stage, url).target) == Allow
  {
  }

  /** Hence under those stages one redirect is always enough: the
      navigation lands on the requested URL if allowed, else on the
      stage's target. */
  lemma SettlesAfterOneRedirect(stage: Stage, url: Url, hops: nat)
    requires stage in {Bootstrapping, Bootstrapped, Ready}
    requires hops >= 1
    ensures Navigate(stage, url, hops) ==
      Landed(if url in Policy(stage).allowed then url else Policy(stage).target)
  {
  }

  /** For `none` the redirect target is not a fixed point: `/installer` is
      redirected to `/installer` again. */
  lemma NoneRedirectIsNotFixed(url: Url)
    ensures Decide(None, url).Redirect? ==>
      Decide(None, url).target == "/installer" && Decide(None, "/installer") == Redirect("/installer")
  {
  }

  /** Hence under `none` a URL outside the allowed list never lands,
      however many redirects are followed. */
  lemma {:induction false} NoneNeverSettles(url: Url, hops: nat)
    requires url !in Policy(None).allowed
    ensures Navigate(None, url, hops) == StillRedirecting("/installer")
    decreases hops
  {
    if hops > 0 {
      NoneNeverSettles("/installer", hops - 1);
    }
  }
}
