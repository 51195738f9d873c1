/** The homepage hero's call to action: which buttons to show and where
    the primary button leads, from the route's loader data (which may be
    missing). */
module Integrations {
  import opened Wrappers

  datatype LoaderData = LoaderData(isSignedIn: bool, hasActiveSubscription: bool, hasInvite: bool)

  /** `!loaderData?.isSignedIn && loaderData?.hasInvite`, as a truth value. */
  function ShowAuthButtons(d: Option<LoaderData>): (show: bool)
    ensures show <==> d.Some? && !d.value.isSignedIn && d.value.hasInvite
  {
    match d
    case None => false
    case Some(data) => !data.isSignedIn && data.hasInvite
  }

  /** `primaryButtonLink`: subscribers go to the dashboard, other signed-in
      users to pricing, invited visitors to sign-up, everyone else
      (including a page without loader data) to the waitlist. */
  function PrimaryButtonLink(d: Option<LoaderData>): (link: string)
    ensures d.Some? && d.value.isSignedIn && d.value.hasActiveSubscription ==> link == "/dashboard"
    ensures d.Some? && d.value.isSignedIn && !d.value.hasActiveSubscription ==> link == "/pricing"
    ensures link == "/sign-up" <==> ShowAuthButtons(d)
    ensures link == "/waitlist" <==> d.None? || (!d.value.isSignedIn && !d.value.hasInvite)
  {
    if d.Some? && d.value.isSignedIn then
      if d.value.hasActiveSubscription then "/dashboard" else "/pricing"
    else if ShowAuthButtons(d) then "/sign-up"
    else "/waitlist"
  }

  /** `primaryButtonText`, computed by its own chain of conditions. */
  function PrimaryButtonText(d: Option<LoaderData>): (text: string)
    ensures d.Some? && d.value.isSignedIn ==>
      text == if d.value.hasActiveSubscription then "Go to Dashboard" else "Start Connecting Better"
    ensures text == "Sign Up" <==> ShowAuthButtons(d)
    ensures text == "Join Waitlist" <==> d.None? || (!d.value.isSignedIn && !d.value.hasInvite)
  {
    if d.Some? && d.value.isSignedIn then
      if d.value.hasActiveSubscription then "Go to Dashboard" else "Start Connecting Better"
    else if ShowAuthButtons(d) then "Sign Up"
    else "Join Waitlist"
  }

  /** The label that belongs to each destination. */
  function LabelFor(link: string): string
  {
    if link == "/dashboard" then "Go to Dashboard"
    else if link == "/pricing" then "Start Connecting Better"
    else if link == "/sign-up" then "Sign Up"
    else "Join Waitlist"
  }

  /** The two chains never disagree: the button's text is always the label
      of its link, and the link is one of the four destinations. */
  lemma TextMatchesLink(d: Option<LoaderData>)
    ensures PrimaryButtonText(d) == LabelFor(PrimaryButtonLink(d))
    ensures PrimaryButtonLink(d) in ["/dashboard", "/pricing", "/sign-up", "/waitlist"]
  {
  }
}
