// The route guard that blocks companies whose subscription lapsed
// (src/components/SubscriptionGuard.tsx). Dates are instants in milliseconds,
// with parsing left out; "now" is a parameter.
module SubscriptionGuard {
  import opened Wrappers

  /** The subscription fields of the signed-in user's company. */
  datatype Company = Company(status: string, trialEndsAt: Option<int>, subscriptionEndsAt: Option<int>)

  /** The verdict checkSubscription reaches for a company at instant `now`. */
  predicate Blocked(c: Company, now: int)
  {
    || c.status == "expired" || c.status == "cancelled"
    || (c.status == "trial" && c.trialEndsAt.Some? && c.trialEndsAt.value < now)
    || (c.status == "active" && c.subscriptionEndsAt.Some? && c.subscriptionEndsAt.value < now)
  }

  /** Once blocked, a company stays blocked as time goes on. */
  lemma BlockedIsPermanent(c: Company, now: int, later: int)
    requires Blocked(c, now) && now <= later
    ensures Blocked(c, later)
  {
  }

  /** A trial or subscription is still open at its exact end instant. */
  lemma OpenAtEndInstant(end: int)
    ensures !Blocked(Company("trial", Some(end), None), end)
    ensures !Blocked(Company("active", None, Some(end)), end)
    ensures Blocked(Company("trial", Some(end), None), end + 1)
  {
  }

  /** Without an end date a trial or an active subscription is never blocked; an end date
    * of the other kind does not count. */
  lemma NoEndDateNeverBlocks(now: int, t: int, s: int)
    ensures !Blocked(Company("trial", None, Some(s)), now)
    ensures !Blocked(Company("active", Some(t), None), now)
    ensures !Blocked(Company("basic", Some(t), Some(s)), now)
  {
  }

  /** What the guard renders. */
  datatype View = Spinner | RedirectToPlans(reason: string) | Children

  class Guard {
    var checking: bool
    var isBlocked: bool

    constructor ()
      ensures checking && !isBlocked
    {
      checking := true;
      isBlocked := false;
    }

    /** checkSubscription. With no user or no company only `checking` is cleared, and
      * `isBlocked` keeps the value of the previous check. */
    method CheckSubscription(company: Option<Company>, now: int)
      modifies this
      ensures !checking
      ensures company.None? ==> isBlocked == old(isBlocked)
      ensures company.Some? ==> (isBlocked <==> Blocked(company.value, now))
    {
      if company.None? {
        checking := false;
        return;
      }
      var c := company.value;
      if c.status == "expired" || c.status == "cancelled" {
        isBlocked := true;
        checking := false;
        return;
      }
      if c.status == "trial" && c.trialEndsAt.Some? {
        if c.trialEndsAt.value < now {
          isBlocked := true;
          checking := false;
          return;
        }
      }
      if c.status == "active" && c.subscriptionEndsAt.Some? {
        if c.subscriptionEndsAt.value < now {
          isBlocked := true;
          checking := false;
          return;
        }
      }
      isBlocked := false;
      checking := false;
    }

    /** The render: a spinner while loading or checking, the plans page when blocked
      * (unless already there), the protected page otherwise. */
    function View(loading: bool, pathname: string, status: Option<string>): (v: View)
      reads this
      ensures v == Spinner <==> loading || checking
      ensures v.RedirectToPlans? ==> isBlocked && pathname != "/subscription/plans"
      ensures v.RedirectToPlans? ==>
        (v.reason == "trial_ended" <==> status == Some("trial"))
        && (v.reason == "trial_ended" || v.reason == "expired")
      ensures !loading && !checking && isBlocked && pathname != "/subscription/plans" ==> v.RedirectToPlans?
    {
      if loading || checking then Spinner
      else if isBlocked && pathname != "/subscription/plans" then
        RedirectToPlans(if status == Some("trial") then "trial_ended" else "expired")
      else Children
    }
  }
}
