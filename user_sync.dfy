/** The web client's user sync: a browser-side cookie reader, and a
    component that calls the `upsertUser` mutation once per sign-in,
    passing the invite code cookie along. */
module UserSync {
  import opened Wrappers
  import opened JsStrings

  const InviteCookie := "invite_code"

  /** The separator `getCookie` splits on: `; name=`. */
  function Marker(name: string): (m: string)
    ensures |m| == |name| + 3 && m[0] == ';'
  {
    "; " + name + "="
  }

  /** `getCookie(name)` over `document.cookie` (`None` when there is no
      document): split `"; " + cookie` on `"; name="`; with exactly two
      pieces, the second one up to its first `;`, `null` if that is empty.
      A value read is never empty and never holds `;`. */
  function GetCookie(document: Option<string>, name: string): (r: Option<string>)
    ensures document.None? ==> r.None?
    ensures r.Some? ==> r.value != "" && ';' !in r.value
    ensures r.Some? ==> |Split("; " + document.value, Marker(name))| == 2
  {
    if document.None? then None
    else
      var parts := Split("; " + document.value, Marker(name));
      if |parts| == 2 then
        var pieces := Split(parts[1], ";");
        SplitPiecesAreFree(parts[1], ";");
        assert pieces[0] in pieces;
        CharNotFound(pieces[0], ';');
        if pieces[0] == "" then None else Some(pieces[0])
      else None
  }

  /** A cookie string in which `; name=` never occurs (after the leading
      `; `) gives `null`. */
  lemma AbsentNameGivesNull(cookie: string, name: string)
    requires forall q: nat :: !OccursAt("; " + cookie, Marker(name), q)
    ensures GetCookie(Some(cookie), name).None?
  {
    assert IndexOf("; " + cookie, Marker(name), 0).None?;
  }

  /** A name that occurs twice gives `null` too. */
  lemma RepeatedNameGivesNull(cookie: string, name: string, p: nat, q: nat)
    requires OccursAt("; " + cookie, Marker(name), p) && OccursAt("; " + cookie, Marker(name), q)
    requires p + |Marker(name)| <= q
    ensures GetCookie(Some(cookie), name).None?
  {
    SplitOnRepeatedSeparator("; " + cookie, Marker(name), p, q);
  }

  /** The general case: when `; name=` occurs in `"; " + cookie` first at
      `p` and never again after it, the result is the text that follows it
      up to the first `;`, or `null` when that text is empty. */
  lemma GetCookieSingleMatch(cookie: string, name: string, p: nat)
    requires IndexOf("; " + cookie, Marker(name), 0) == Some(p)
    requires IndexOf("; " + cookie, Marker(name), p + |Marker(name)|).None?
    ensures var v := Split(("; " + cookie)[p + |Marker(name)|..], ";")[0];
      GetCookie(Some(cookie), name) == if v == "" then None else Some(v)
  {
    SplitInTwo("; " + cookie, Marker(name), p);
  }

  /** Conversely, a value read comes from the only such match: `; name=`
      occurs first at `p`, never after it, and the value is the text that
      follows it up to the first `;`. */
  lemma GetCookieFound(cookie: string, name: string) returns (p: nat)
    requires GetCookie(Some(cookie), name).Some?
    ensures IndexOf("; " + cookie, Marker(name), 0) == Some(p)
    ensures p + |Marker(name)| <= |"; " + cookie|
    ensures IndexOf("; " + cookie, Marker(name), p + |Marker(name)|).None?
    ensures GetCookie(Some(cookie), name).value == Split(("; " + cookie)[p + |Marker(name)|..], ";")[0]
  {
    var s := "; " + cookie;
    var m := Marker(name);
    assert |Split(s, m)| == 2;
    p := IndexOf(s, m, 0).value;
    SplitTwoOnlyOnce(s, m, p);
    SplitInTwo(s, m, p);
  }

  /** A separator starting with `;` does not occur in a string without `;`. */
  lemma MarkerAbsent(s: string, name: string)
    requires ';' !in s
    ensures forall q: nat :: !OccursAt(s, Marker(name), q)
  {
  }

  /** A cookie string `name=value` with a non-empty value free of `;`
      gives back the value. */
  lemma GetCookieRoundTrip(name: string, value: string)
    requires value != "" && ';' !in value
    ensures GetCookie(Some(name + "=" + value), name) == Some(value)
  {
    var m := Marker(name);
    var s := "; " + (name + "=" + value);
    assert s == m + value;
    assert s[0..|m|] == m;
    SplitOnPresentSeparator(s, m, 0);
    SplitAtFirst(s, m, 0);
    assert s[|m|..] == value;
    MarkerAbsent(value, name);
    assert Split(value, m) == [value];
    SplitOnAbsentChar(value, ';');
  }

  /** The `UserSync` component: `synced` is `syncedRef.current`; `requests`
      lists the `invitedByCode` argument of every `upsertUser` call made, in
      order. */
  class Syncer {
    var synced: bool
    var requests: seq<Option<string>>

    constructor()
      ensures !synced && requests == []
    {
      synced := false;
      requests := [];
    }

    /** One run of the effect. Signed in and not yet synced: call
        `upsertUser` with the invite cookie (`|| undefined` changes nothing,
        as GetCookie never yields ""). Signed out: clear the flag. The call
        is not awaited here; see Settle. */
    method Effect(isSignedIn: bool, document: Option<string>)
      modifies this
      ensures isSignedIn && !old(synced) ==> requests == old(requests) + [GetCookie(document, InviteCookie)]
      ensures !(isSignedIn && !old(synced)) ==> requests == old(requests)
      ensures synced == (isSignedIn && old(synced))
    {
      if isSignedIn && !synced {
        var invitedByCode := GetCookie(document, InviteCookie);
        requests := requests + [invitedByCode];
      }
      if !isSignedIn {
        synced := false;
      }
    }

    /** The `upsertUser` promise settles: the flag is set on success and
        cleared on failure, so a failed sync is retried on the next run. */
    method Settle(succeeded: bool)
      modifies this
      ensures synced == succeeded && requests == old(requests)
    {
      synced := succeeded;
    }
  }
}
