/** The invite gate of the web sign-in and sign-up routes: the server-side
    `Cookie` header parser and the route loader that sends signed-in users
    to the dashboard and, in production, sends visitors with neither an
    invite cookie nor a configured allow-list to the waitlist. The two
    routes carry the same parser and the same loader, so they are modelled
    once. */
module InviteGate {
  import opened Wrappers
  import opened JsStrings

  const InviteCookie := "invite_code"
  const Production := "production"
  const DashboardPath := "/dashboard"
  const NeedInvitePath := "/waitlist?need_invite=1"

  /** What the loader does: throw a redirect, or return `null`. */
  datatype LoaderOutcome = Redirect(location: string) | NoData

  // ---------------------------------------------------------------------
  // getCookieFromRequest
  // ---------------------------------------------------------------------

  /** The header's `;`-separated entries, each trimmed. */
  function Entries(header: string): seq<string>
  {
    var parts := Split(header, ";");
    seq(|parts|, k requires 0 <= k < |parts| => Trim(parts[k]))
  }

  /** `entries.find(c => c.startsWith(p))`, as the index of the entry. */
  function FindWithPrefix(entries: seq<string>, p: string): (r: Option<nat>)
    ensures r.Some? ==> r.value < |entries| && StartsWith(entries[r.value], p)
    ensures forall k :: 0 <= k < |entries| && (r.None? || k < r.value) ==> !StartsWith(entries[k], p)
  {
    if |entries| == 0 then None
    else if StartsWith(entries[0], p) then Some(0)
    else match FindWithPrefix(entries[1..], p)
      case None => None
      case Some(k) => Some(k + 1)
  }

  /** An entry beginning with `name=` has a second `=`-piece. */
  lemma EntrySplits(entry: string, name: string)
    requires StartsWith(entry, name + "=")
    ensures |Split(entry, "=")| >= 2
  {
    assert entry[|name|..|name| + 1] == (name + "=")[|name|..];
    SplitOnPresentSeparator(entry, "=", |name|);
  }

  /** `getCookieFromRequest`: no value without a (non-empty) `Cookie`
      header; otherwise a value exactly when some trimmed entry starts with
      `name=`, and then the second `=`-piece of the first such entry. */
  function GetCookieFromRequest(header: Option<string>, name: string): (r: Option<string>)
    ensures header.None? || header.value == "" ==> r.None?
    ensures header.Some? && header.value != "" ==>
      (r.Some? <==> exists k :: 0 <= k < |Entries(header.value)| && StartsWith(Entries(header.value)[k], name + "="))
  {
    if header.None? || header.value == "" then None
    else
      var entries := Entries(header.value);
      match FindWithPrefix(entries, name + "=")
      case None => None
      case Some(k) =>
        EntrySplits(entries[k], name);
        Some(Split(entries[k], "=")[1])
  }

  /** The second `=`-piece of an entry `name=rest`, for a name without
      `=`: `rest` up to its first `=`. */
  lemma EntryValue(e: string, name: string)
    requires StartsWith(e, name + "=") && '=' !in name
    ensures |Split(e, "=")| >= 2
    ensures Split(e, "=")[1] == Split(e[|name| + 1..], "=")[0]
    ensures '=' !in Split(e, "=")[1]
  {
    assert e[..|name| + 1] == name + "=";
    SplitOnPresentSeparator(e, "=", |name|);
    var first := IndexOf(e, "=", 0).value;
    OccursAtChar(e, '=', first);
    assert first == |name|;
    SplitAtFirst(e, "=", first);
    var rest := e[|name| + 1..];
    SplitPiecesAreFree(rest, "=");
    CharNotFound(Split(rest, "=")[0], '=');
  }

  /** For a name without `=`, the value read is the text of the first
      matching entry after `name=`, up to (not including) the next `=`; so
      it never contains `=`, and a value holding one comes back cut short. */
  lemma CookieValue(header: string, name: string) returns (k: nat)
    requires header != "" && '=' !in name
    requires GetCookieFromRequest(Some(header), name).Some?
    ensures k < |Entries(header)| && StartsWith(Entries(header)[k], name + "=")
    ensures forall j :: 0 <= j < k ==> !StartsWith(Entries(header)[j], name + "=")
    ensures var rest := Entries(header)[k][|name| + 1..];
      GetCookieFromRequest(Some(header), name).value == Split(rest, "=")[0]
    ensures '=' !in GetCookieFromRequest(Some(header), name).value
  {
    var entries := Entries(header);
    k := FindWithPrefix(entries, name + "=").value;
    EntryValue(entries[k], name);
  }

  /** A header without `;` is one entry, itself trimmed. */
  lemma SingleEntry(h: string)
    requires ';' !in h
    ensures Entries(h) == [Trim(h)]
  {
    SplitOnAbsentChar(h, ';');
  }

  /** A header holding just `name=value` gives back `value`, when neither
      contains `;` or `=` and trimming does not touch the entry. */
  lemma CookieRoundTrip(name: string, value: string)
    requires name != "" && !IsWhitespace(name[0])
    requires ';' !in name && '=' !in name && ';' !in value && '=' !in value
    requires value == "" || !IsWhitespace(value[|value| - 1])
    ensures GetCookieFromRequest(Some(name + "=" + value), name) == Some(value)
  {
    var h := name + "=" + value;
    assert h[0] == name[0];
    assert h[|h| - 1] == if value == "" then '=' else value[|value| - 1];
    TrimUntouched(h);
    assert ';' !in h by {
      assert forall i :: 0 <= i < |h| ==> h[i] == '=' || h[i] in name || h[i] in value;
    }
    SingleEntry(h);
    assert h[..|name| + 1] == name + "=";
    var k := CookieValue(h, name);
    assert k == 0;
    assert h[|name| + 1..] == value;
    SplitOnAbsentChar(value, '=');
  }

  // ---------------------------------------------------------------------
  // The allow-list
  // ---------------------------------------------------------------------

  /** One piece, trimmed and lower-cased. */
  function Clean(piece: string): string
  {
    ToLower(Trim(piece))
  }

  /** `pieces.map(s => s.trim().toLowerCase()).filter(Boolean)`. */
  function Normalize(pieces: seq<string>): (r: seq<string>)
    ensures |r| <= |pieces|
    ensures forall e :: e in r ==> e != ""
  {
    if |pieces| == 0 then []
    else
      var t := Clean(pieces[0]);
      (if t == "" then [] else [t]) + Normalize(pieces[1..])
  }

  /** The allow-list read from `ALLOWLIST_EMAILS` (unset or empty reads as
      ""). */
  function Allowlist(env: Option<string>): (r: seq<string>)
    ensures forall e :: e in r ==> e != ""
  {
    Normalize(Split(OrElse(env, ""), ","))
  }

  /** Every piece that does not clean to "" is kept. */
  lemma {:induction false} NormalizeComplete(pieces: seq<string>, p: string)
    requires p in pieces && Clean(p) != ""
    ensures Clean(p) in Normalize(pieces)
  {
    if p != pieces[0] {
      NormalizeComplete(pieces[1..], p);
    }
  }

  /** Lower-casing changes no character into or out of whitespace. */
  lemma LowerKeepsWhitespace(c: char)
    ensures IsWhitespace(LowerChar(c)) <==> IsWhitespace(c)
  {
  }

  /** A cleaned piece that is not empty starts and ends with
      non-whitespace and has no upper-case ASCII letter. */
  lemma CleanShape(p: string, e: string)
    requires e == Clean(p) && e != ""
    ensures !IsWhitespace(e[0]) && !IsWhitespace(e[|e| - 1])
    ensures forall i :: 0 <= i < |e| ==> !('A' <= e[i] <= 'Z')
  {
    var t := Trim(p);
    assert e == ToLower(t) && |e| == |t|;
    assert e[0] == LowerChar(t[0]);
    assert e[|e| - 1] == LowerChar(t[|t| - 1]);
    LowerKeepsWhitespace(t[0]);
    LowerKeepsWhitespace(t[|t| - 1]);
  }

  /** The piece an allow-list entry was cleaned from. */
  lemma {:induction false} NormalizeSource(pieces: seq<string>, e: string) returns (p: string)
    requires e in Normalize(pieces)
    ensures p in pieces && e == Clean(p) && e != ""
  {
    var t := Clean(pieces[0]);
    if t != "" && e == t {
      p := pieces[0];
    } else {
      p := NormalizeSource(pieces[1..], e);
    }
  }

  /** Every allow-list entry (an element of `Normalize` over the
      comma-separated pieces) is non-empty, starts and ends with a
      non-whitespace character and holds no upper-case ASCII letter. */
  lemma AllowlistEntries(pieces: seq<string>, e: string)
    requires e in Normalize(pieces)
    ensures e != ""
    ensures !IsWhitespace(e[0]) && !IsWhitespace(e[|e| - 1])
    ensures forall i :: 0 <= i < |e| ==> !('A' <= e[i] <= 'Z')
  {
    var p := NormalizeSource(pieces, e);
    CleanShape(p, e);
  }

  /** The allow-list is empty exactly when every comma-separated piece of
      the setting is blank. */
  lemma AllowlistEmpty(env: Option<string>)
    ensures |Allowlist(env)| == 0 <==>
      forall p :: p in Split(OrElse(env, ""), ",") ==> AllWhitespace(p)
  {
    var pieces := Split(OrElse(env, ""), ",");
    if |Allowlist(env)| != 0 {
      var p := NormalizeSource(pieces, Allowlist(env)[0]);
      TrimEmpty(p);
    } else {
      forall p | p in pieces
        ensures AllWhitespace(p)
      {
        TrimEmpty(p);
        if Clean(p) != "" {
          NormalizeComplete(pieces, p);
        }
      }
    }
  }

  // ---------------------------------------------------------------------
  // The loader
  // ---------------------------------------------------------------------

  /** The sign-in / sign-up `loader`. `userId` is what the session reports,
      `nodeEnv` is `NODE_ENV`, `cookieHeader` the request's `Cookie`
      header and `allowlistEnv` is `ALLOWLIST_EMAILS`. A signed-in user is
      sent to the dashboard whatever the rest; a signed-out visitor is sent
      to the waitlist exactly when in production with neither an invite
      cookie nor a configured allow-list; otherwise (in particular in
      every environment but production) the page renders: `NoData`. */
  function Loader(userId: Option<string>, nodeEnv: Option<string>, cookieHeader: Option<string>, allowlistEnv: Option<string>): (r: LoaderOutcome)
    ensures Truthy(userId) ==> r == Redirect(DashboardPath)
    ensures r == Redirect(NeedInvitePath) <==>
      && !Truthy(userId)
      && nodeEnv == Some(Production)
      && !Truthy(GetCookieFromRequest(cookieHeader, InviteCookie))
      && |Allowlist(allowlistEnv)| == 0
    ensures r == NoData <==>
      && !Truthy(userId)
      && !(nodeEnv == Some(Production)
           && !Truthy(GetCookieFromRequest(cookieHeader, InviteCookie))
           && |Allowlist(allowlistEnv)| == 0)
    ensures r == NoData || r == Redirect(DashboardPath) || r == Redirect(NeedInvitePath)
  {
    if Truthy(userId) then Redirect(DashboardPath)
    else if nodeEnv == Some(Production) then
      var inviteCode := GetCookieFromRequest(cookieHeader, InviteCookie);
      if !Truthy(inviteCode) && |Allowlist(allowlistEnv)| == 0 then Redirect(NeedInvitePath)
      else NoData
    else NoData
  }

  /** A signed-out production visitor whose request carries a truthy
      `invite_code` cookie reaches the page, whatever else the header holds
      and whatever the allow-list is. */
  lemma InvitedVisitorPasses(cookieHeader: Option<string>, allowlistEnv: Option<string>)
    requires Truthy(GetCookieFromRequest(cookieHeader, InviteCookie))
    ensures Loader(None, Some(Production), cookieHeader, allowlistEnv) == NoData
  {
  }

  /** In particular a visitor whose only cookie is a non-empty invite code
      reaches the page. */
  lemma InviteCookieHeaderPasses(code: string, allowlistEnv: Option<string>)
    requires code != "" && ';' !in code && '=' !in code && !IsWhitespace(code[|code| - 1])
    ensures Loader(None, Some(Production), Some(InviteCookie + "=" + code), allowlistEnv) == NoData
  {
    CookieRoundTrip(InviteCookie, code);
    InvitedVisitorPasses(Some(InviteCookie + "=" + code), allowlistEnv);
  }

  /** A production allow-list with any non-blank entry lets every visitor
      reach the page, cookie or not: a signed-out one gets `NoData`. */
  lemma AllowlistOpensGate(userId: Option<string>, cookieHeader: Option<string>, allowlistEnv: Option<string>, p: string)
    requires p in Split(OrElse(allowlistEnv, ""), ",") && !AllWhitespace(p)
    ensures Loader(userId, Some(Production), cookieHeader, allowlistEnv) != Redirect(NeedInvitePath)
    ensures !Truthy(userId) ==> Loader(userId, Some(Production), cookieHeader, allowlistEnv) == NoData
  {
    AllowlistEmpty(allowlistEnv);
  }
}
