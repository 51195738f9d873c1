/** The `users` table of the backend: its index lookups (`get`,
    `getCurrentUser`, `findUserByToken`, `getUserByInviteCode`), the
    insert-or-patch `upsertUser`, the bounded search for an unused 4-digit
    invite code, and `updatePhoneNumber` with its `+1XXXXXXXXXX` check.

    The table is a sequence of documents in insertion order; a document id
    is a number handed out from a counter. The identity provider is an
    `Option<Identity>` argument, and each `Math.random()` draw of the
    invite-code search is an integer in 0..9999 passed in. */
module Users {
  import opened Wrappers
  import opened JsStrings

  type UserId = nat

  /** `Math.floor(Math.random() * 10000)`. */
  type Draw = n: int | 0 <= n < 10000

  /** What the identity provider says about the caller. */
  datatype Identity = Identity(
    subject: string,
    name: Option<string>,
    email: Option<string>,
    pictureUrl: Option<string>)

  datatype User = User(
    id: UserId,
    name: Option<string>,
    email: Option<string>,
    image: Option<string>,
    tokenIdentifier: string,
    inviteCode: string,
    invitedByCode: Option<string>,
    phoneNumber: Option<string>)

  datatype UserError =
    | NotUnique            // `.unique()` found more than one document
    | InviteCodeExhausted  // 20 draws, every code already held
    | InvalidPhoneNumber   // the phone number is not `+1` and ten digits
    | MissingDocument      // `patch` of an id that is not in the table

  const MaxAttempts: nat := 20

  function Message(e: UserError): string
  {
    match e
    case NotUnique => "unique() query returned more than one document"
    case InviteCodeExhausted => "Failed to generate unique invite code after 20 attempts"
    case InvalidPhoneNumber => "Invalid phone number format. Must be +1XXXXXXXXXX"
    case MissingDocument => "Update on nonexistent document"
  }

  // ---------------------------------------------------------------------
  // Index queries
  // ---------------------------------------------------------------------

  datatype Index = ByToken | ByInviteCode

  function Key(u: User, ix: Index): string
  {
    match ix
    case ByToken => u.tokenIdentifier
    case ByInviteCode => u.inviteCode
  }

  /** `.withIndex(ix, q => q.eq(key, v))`: the documents whose key is `v`,
      in table order. */
  function Where(rows: seq<User>, ix: Index, v: string): (r: seq<User>)
    ensures |r| <= |rows|
    ensures forall u :: u in r <==> u in rows && Key(u, ix) == v
    ensures r == [] <==> forall u :: u in rows ==> Key(u, ix) != v
  {
    if rows == [] then []
    else (if Key(rows[0], ix) == v then [rows[0]] else []) + Where(rows[1..], ix, v)
  }

  /** `.unique()`: no document gives null, one gives it, more throw. */
  function Unique(ms: seq<User>): (r: Result<Option<User>, UserError>)
    ensures r == Ok(None) <==> ms == []
    ensures r.Err? <==> |ms| > 1
    ensures r.Ok? && r.value.Some? ==> ms == [r.value.value]
  {
    if |ms| == 0 then Ok(None)
    else if |ms| == 1 then Ok(Some(ms[0]))
    else Err(NotUnique)
  }

  /** No two documents share the key `ix`. */
  ghost predicate KeyUnique(rows: seq<User>, ix: Index)
  {
    forall j, k :: 0 <= j < k < |rows| ==> Key(rows[j], ix) != Key(rows[k], ix)
  }

  /** On an index whose keys are unique, a lookup finds at most one document. */
  lemma {:induction false} WhereOfUniqueKey(rows: seq<User>, ix: Index, v: string)
    requires KeyUnique(rows, ix)
    ensures |Where(rows, ix, v)| <= 1
  {
    if rows != [] {
      var tail := rows[1..];
      assert KeyUnique(tail, ix) by {
        forall j, k | 0 <= j < k < |tail| ensures Key(tail[j], ix) != Key(tail[k], ix) {
          assert tail[j] == rows[j + 1] && tail[k] == rows[k + 1];
        }
      }
      WhereOfUniqueKey(tail, ix, v);
      if Key(rows[0], ix) == v {
        forall u | u in tail ensures Key(u, ix) != v {
          var k :| 0 <= k < |tail| && tail[k] == u;
          assert rows[k + 1] == u;
        }
        assert Where(tail, ix, v) == [];
      }
    }
  }

  /** `ctx.db.get(id)`. */
  function Get(rows: seq<User>, id: UserId): (r: Option<User>)
    ensures r.Some? ==> r.value in rows && r.value.id == id
    ensures r.None? ==> forall u :: u in rows ==> u.id != id
  {
    if rows == [] then None
    else if rows[0].id == id then Some(rows[0])
    else Get(rows[1..], id)
  }

  /** `getCurrentUser`: null without an identity, otherwise the unique user
      whose token is the identity's subject. */
  function GetCurrentUser(identity: Option<Identity>, rows: seq<User>): (r: Result<Option<User>, UserError>)
    ensures identity.None? ==> r == Ok(None)
    ensures r.Ok? && r.value.Some? ==>
      identity.Some? && r.value.value in rows && r.value.value.tokenIdentifier == identity.value.subject
    ensures identity.Some? && r == Ok(None) ==>
      forall u :: u in rows ==> u.tokenIdentifier != identity.value.subject
  {
    match identity
    case None => Ok(None)
    case Some(id) => Unique(Where(rows, ByToken, id.subject))
  }

  /** `findUserByToken`: the same lookup as `getCurrentUser`; its
      `tokenIdentifier` argument is never read. */
  function FindUserByToken(identity: Option<Identity>, rows: seq<User>, tokenIdentifier: string): (r: Result<Option<User>, UserError>)
    ensures r == GetCurrentUser(identity, rows)
  {
    if identity.None? then Ok(None)
    else
      var user := Unique(Where(rows, ByToken, identity.value.subject));
      match user
      case Err(e) => Err(e)
      case Ok(Some(u)) => Ok(Some(u))
      case Ok(None) => Ok(None)
  }

  /** `getUserByInviteCode`. */
  function GetUserByInviteCode(rows: seq<User>, code: string): (r: Result<Option<User>, UserError>)
    ensures r.Ok? && r.value.Some? ==> r.value.value in rows && r.value.value.inviteCode == code
    ensures r == Ok(None) <==> forall u :: u in rows ==> u.inviteCode != code
  {
    Unique(Where(rows, ByInviteCode, code))
  }

  // ---------------------------------------------------------------------
  // Table invariant
  // ---------------------------------------------------------------------

  /** What the table's writers keep: ids below the counter and pairwise
      distinct, and no token or invite code held twice. */
  ghost predicate TableInvariant(rows: seq<User>, nextId: nat)
  {
    && (forall k :: 0 <= k < |rows| ==> rows[k].id < nextId)
    && (forall j, k :: 0 <= j < k < |rows| ==> rows[j].id != rows[k].id)
    && KeyUnique(rows, ByToken)
    && KeyUnique(rows, ByInviteCode)
  }

  /** In a table that keeps the invariant, the `.unique()` lookups never throw. */
  lemma LookupsNeverThrow(rows: seq<User>, nextId: nat, identity: Option<Identity>, code: string)
    requires TableInvariant(rows, nextId)
    ensures GetCurrentUser(identity, rows).Ok?
    ensures GetUserByInviteCode(rows, code).Ok?
  {
    WhereOfUniqueKey(rows, ByInviteCode, code);
    if identity.Some? {
      WhereOfUniqueKey(rows, ByToken, identity.value.subject);
    }
  }

  /** In such a table a user found by token is THE user with that token. */
  lemma CurrentUserIsTheOne(rows: seq<User>, nextId: nat, identity: Identity, u: User)
    requires TableInvariant(rows, nextId)
    requires u in rows && u.tokenIdentifier == identity.subject
    ensures GetCurrentUser(Some(identity), rows) == Ok(Some(u))
  {
    WhereOfUniqueKey(rows, ByToken, identity.subject);
    assert u in Where(rows, ByToken, identity.subject);
  }

  // ---------------------------------------------------------------------
  // Invite codes and phone numbers
  // ---------------------------------------------------------------------

  /** `draw.toString().padStart(4, "0")`. */
  function InviteCode(draw: Draw): string
  {
    PadStart(DecimalString(draw), 4, '0')
  }

  /** An invite code is four decimal digits that read back as the draw. */
  lemma InviteCodeShape(draw: Draw)
    ensures |InviteCode(draw)| == 4 && AllDigits(InviteCode(draw))
    ensures ParseDecimal(InviteCode(draw)) == draw
  {
    var d := DecimalString(draw);
    assert Pow10(4) == 10000;
    DecimalStringLength(draw, 4);
    var z := seq(4 - |d|, _ => '0');
    assert InviteCode(draw) == z + d;
    LeadingZeros(z, d);
    ParseDecimalString(draw);
  }

  /** Different draws give different codes. */
  lemma InviteCodeInjective(a: Draw, b: Draw)
    requires InviteCode(a) == InviteCode(b)
    ensures a == b
  {
    InviteCodeShape(a);
    InviteCodeShape(b);
  }

  /** The codes the draws stand for, in draw order. */
  function Candidates(draws: seq<Draw>): seq<string>
  {
    if draws == [] then [] else [InviteCode(draws[0])] + Candidates(draws[1..])
  }

  /** Candidate k is the code of draw k. */
  lemma {:induction false} CandidateAt(draws: seq<Draw>, k: nat)
    requires k < |draws|
    ensures |Candidates(draws)| == |draws| && Candidates(draws)[k] == InviteCode(draws[k])
  {
    if k > 0 {
      CandidateAt(draws[1..], k - 1);
    } else {
      CandidatesLength(draws);
    }
  }

  lemma {:induction false} CandidatesLength(draws: seq<Draw>)
    ensures |Candidates(draws)| == |draws|
  {
    if draws != [] {
      CandidatesLength(draws[1..]);
    }
  }

  /** Some user already holds `code`. */
  predicate Taken(rows: seq<User>, code: string)
  {
    exists u :: u in rows && u.inviteCode == code
  }

  /** The search over candidate codes: the first one no user holds; a throw
      when a lookup is not unique; exhaustion when every one is taken. */
  function FirstFreeCode(rows: seq<User>, codes: seq<string>): Result<string, UserError>
  {
    if |codes| == 0 then Err(InviteCodeExhausted)
    else
      match Unique(Where(rows, ByInviteCode, codes[0]))
      case Err(e) => Err(e)
      case Ok(None) => Ok(codes[0])
      case Ok(Some(_)) => FirstFreeCode(rows, codes[1..])
  }

  /** What `generateUniqueInviteCode` returns for the draws it is given. */
  function GenerateOutcome(rows: seq<User>, draws: seq<Draw>): Result<string, UserError>
  {
    FirstFreeCode(rows, Candidates(draws))
  }

  /** A found code is held by no user. */
  lemma {:induction false} GeneratedCodeIsFree(rows: seq<User>, codes: seq<string>)
    requires FirstFreeCode(rows, codes).Ok?
    ensures !Taken(rows, FirstFreeCode(rows, codes).value)
  {
    var found := Where(rows, ByInviteCode, codes[0]);
    if found != [] {
      assert FirstFreeCode(rows, codes) == FirstFreeCode(rows, codes[1..]);
      GeneratedCodeIsFree(rows, codes[1..]);
    }
  }

  /** A found code is the first candidate that is free: every earlier
      candidate is taken. */
  lemma {:induction false} GeneratedCodeIsFirstFree(rows: seq<User>, codes: seq<string>)
    requires FirstFreeCode(rows, codes).Ok?
    ensures exists k :: (0 <= k < |codes| && FirstFreeCode(rows, codes).value == codes[k]
      && forall j :: 0 <= j < k ==> Taken(rows, codes[j]))
  {
    var found := Where(rows, ByInviteCode, codes[0]);
    if found == [] {
      assert FirstFreeCode(rows, codes).value == codes[0];
    } else {
      assert found[0] in rows;
      assert Taken(rows, codes[0]);
      var tail := codes[1..];
      assert FirstFreeCode(rows, codes) == FirstFreeCode(rows, tail);
      GeneratedCodeIsFirstFree(rows, tail);
      var k :| 0 <= k < |tail| && FirstFreeCode(rows, tail).value == tail[k]
        && forall j :: 0 <= j < k ==> Taken(rows, tail[j]);
      assert forall j :: 1 <= j < k + 1 ==> codes[j] == tail[j - 1];
      assert codes[k + 1] == tail[k];
    }
  }

  /** In a table that keeps the invariant the search fails only by
      exhaustion, and only when every candidate is taken. */
  lemma {:induction false} GenerateFailsOnlyWhenAllTaken(rows: seq<User>, nextId: nat, codes: seq<string>)
    requires TableInvariant(rows, nextId)
    requires FirstFreeCode(rows, codes).Err?
    ensures FirstFreeCode(rows, codes).error == InviteCodeExhausted
    ensures forall k :: 0 <= k < |codes| ==> Taken(rows, codes[k])
  {
    if |codes| > 0 {
      var found := Where(rows, ByInviteCode, codes[0]);
      WhereOfUniqueKey(rows, ByInviteCode, codes[0]);
      var tail := codes[1..];
      assert FirstFreeCode(rows, codes) == FirstFreeCode(rows, tail);
      GenerateFailsOnlyWhenAllTaken(rows, nextId, tail);
      assert found[0] in rows;
      assert Taken(rows, codes[0]);
      assert forall k :: 1 <= k < |codes| ==> codes[k] == tail[k - 1];
    }
  }

  /** A generated invite code is the code of one of the draws, hence four
      decimal digits. */
  lemma GeneratedCodeShape(rows: seq<User>, draws: seq<Draw>)
    requires GenerateOutcome(rows, draws).Ok?
    ensures exists k :: 0 <= k < |draws| && GenerateOutcome(rows, draws).value == InviteCode(draws[k])
    ensures |GenerateOutcome(rows, draws).value| == 4 && AllDigits(GenerateOutcome(rows, draws).value)
  {
    var codes := Candidates(draws);
    GeneratedCodeIsFirstFree(rows, codes);
    var k :| 0 <= k < |codes| && FirstFreeCode(rows, codes).value == codes[k];
    CandidatesLength(draws);
    CandidateAt(draws, k);
    InviteCodeShape(draws[k]);
  }

  /** `/^\+1\d{10}$/`: exactly `+1` followed by ten ASCII digits. */
  predicate IsValidPhoneNumber(p: string)
  {
    |p| == 12 && p[..2] == "+1" && AllDigits(p[2..])
  }

  // ---------------------------------------------------------------------
  // Profile fields written by upsertUser
  // ---------------------------------------------------------------------

  /** The stored profile differs from the identity's in name, email or image. */
  predicate ProfileDiffers(u: User, identity: Identity)
  {
    u.name != identity.name || u.email != identity.email || u.image != identity.pictureUrl
  }

  /** `ctx.db.patch(id, fields)` applied to the rows: only the document with
      that id changes. */
  function PatchProfile(rows: seq<User>, id: UserId, identity: Identity): (r: seq<User>)
    ensures |r| == |rows|
    ensures forall k :: 0 <= k < |rows| ==>
      r[k] == if rows[k].id == id
              then rows[k].(name := identity.name, email := identity.email, image := identity.pictureUrl)
              else rows[k]
  {
    seq(|rows|, k requires 0 <= k < |rows| =>
      if rows[k].id == id
      then rows[k].(name := identity.name, email := identity.email, image := identity.pictureUrl)
      else rows[k])
  }

  function PatchPhone(rows: seq<User>, id: UserId, phone: string): (r: seq<User>)
    ensures |r| == |rows|
    ensures forall k :: 0 <= k < |rows| ==>
      r[k] == if rows[k].id == id then rows[k].(phoneNumber := Some(phone)) else rows[k]
  {
    seq(|rows|, k requires 0 <= k < |rows| =>
      if rows[k].id == id then rows[k].(phoneNumber := Some(phone)) else rows[k])
  }

  /** Patching profile fields keeps the table invariant: ids, tokens and
      invite codes are untouched. */
  lemma PatchProfileKeepsInvariant(rows: seq<User>, nextId: nat, id: UserId, identity: Identity)
    requires TableInvariant(rows, nextId)
    ensures TableInvariant(PatchProfile(rows, id, identity), nextId)
  {
    var r := PatchProfile(rows, id, identity);
    assert forall k :: 0 <= k < |rows| ==>
      r[k].id == rows[k].id && r[k].tokenIdentifier == rows[k].tokenIdentifier && r[k].inviteCode == rows[k].inviteCode;
  }

  lemma PatchPhoneKeepsInvariant(rows: seq<User>, nextId: nat, id: UserId, phone: string)
    requires TableInvariant(rows, nextId)
    ensures TableInvariant(PatchPhone(rows, id, phone), nextId)
  {
    var r := PatchPhone(rows, id, phone);
    assert forall k :: 0 <= k < |rows| ==>
      r[k].id == rows[k].id && r[k].tokenIdentifier == rows[k].tokenIdentifier && r[k].inviteCode == rows[k].inviteCode;
  }

  /** Appending a document with a fresh id, an unused token and an unused
      invite code keeps the table invariant. */
  lemma InsertKeepsInvariant(rows: seq<User>, nextId: nat, u: User)
    requires TableInvariant(rows, nextId)
    requires u.id == nextId
    requires forall v :: v in rows ==> v.tokenIdentifier != u.tokenIdentifier && v.inviteCode != u.inviteCode
    ensures TableInvariant(rows + [u], nextId + 1)
  {
    var r := rows + [u];
    forall j, k | 0 <= j < k < |r|
      ensures r[j].id != r[k].id
      ensures r[j].tokenIdentifier != r[k].tokenIdentifier
      ensures r[j].inviteCode != r[k].inviteCode
    {
      if k == |rows| {
        assert r[j] in rows;
      }
    }
  }

  // ---------------------------------------------------------------------
  // The table and its mutations
  // ---------------------------------------------------------------------

  class UserTable {
    var rows: seq<User>
    var nextId: nat

    ghost predicate Valid()
      reads this
    {
      TableInvariant(rows, nextId)
    }

    constructor ()
      ensures Valid() && rows == [] && nextId == 0
    {
      rows := [];
      nextId := 0;
    }

    /** `generateUniqueInviteCode`: at most `MaxAttempts` draws, each looked
        up on the invite-code index; the first free one is returned. */
    method GenerateUniqueInviteCode(draws: seq<Draw>) returns (r: Result<string, UserError>)
      requires |draws| == MaxAttempts
      ensures r == GenerateOutcome(rows, draws)
      ensures r.Ok? ==> !Taken(rows, r.value)
    {
      var i := 0;
      while i < MaxAttempts
        invariant 0 <= i <= MaxAttempts
        invariant GenerateOutcome(rows, draws) == FirstFreeCode(rows, Candidates(draws[i..]))
      {
        var code := InviteCode(draws[i]);
        var existing := Unique(Where(rows, ByInviteCode, code));
        ghost var rest := Candidates(draws[i..]);
        assert draws[i..][0] == draws[i] && draws[i..][1..] == draws[i + 1..];
        assert rest == [code] + Candidates(draws[i + 1..]);
        match existing {
          case Err(e) =>
            assert FirstFreeCode(rows, rest) == Err(e);
            return Err(e);
          case Ok(None) =>
            assert FirstFreeCode(rows, rest) == Ok(code);
            r := Ok(code);
            GeneratedCodeIsFree(rows, rest);
            return;
          case Ok(Some(_)) =>
            assert rest[1..] == Candidates(draws[i + 1..]);
        }
        i := i + 1;
      }
      r := Err(InviteCodeExhausted);
    }

    /** `upsertUser`: nothing without an identity; for a known token, a
        patch of name, email and image only when one of them differs, and
        the record as it was before the patch is returned; otherwise one new
        document with a freshly generated invite code. A throw leaves the
        table as it was (the mutation is one transaction). */
    method UpsertUser(identity: Option<Identity>, invitedByCode: Option<string>, draws: seq<Draw>)
      returns (r: Result<Option<User>, UserError>)
      requires Valid() && |draws| == MaxAttempts
      modifies this
      ensures Valid()
      ensures identity.None? ==> r == Ok(None) && rows == old(rows) && nextId == old(nextId)
      ensures identity.Some? ==>
        var found := old(GetCurrentUser(identity, rows));
        found.Ok? &&
        (found.value.Some? ==>
          var u := found.value.value;
          && r == Ok(Some(u))
          && nextId == old(nextId)
          && rows == (if ProfileDiffers(u, identity.value) then PatchProfile(old(rows), u.id, identity.value) else old(rows)))
      ensures identity.Some? && old(GetCurrentUser(identity, rows)) == Ok(None) ==>
        var gen := old(GenerateOutcome(rows, draws));
        && (gen.Ok? ==>
          var nu := User(old(nextId), identity.value.name, identity.value.email, identity.value.pictureUrl,
                         identity.value.subject, gen.value, invitedByCode, None);
          r == Ok(Some(nu)) && rows == old(rows) + [nu] && nextId == old(nextId) + 1)
        && (gen.Err? ==> r == Err(gen.error) && rows == old(rows) && nextId == old(nextId))
    {
      if identity.None? {
        return Ok(None);
      }
      LookupsNeverThrow(rows, nextId, identity, "");
      var existing := GetCurrentUser(identity, rows);
      if existing.value.Some? {
        var u := existing.value.value;
        RefreshProfile(u, identity.value);
        return Ok(Some(u));
      }
      r := InsertNewUser(identity.value, invitedByCode, draws);
    }

    /** The known-user branch of `upsertUser`: patch name, email and image
        only when one of them differs. */
    method RefreshProfile(u: User, identity: Identity)
      requires Valid()
      modifies this
      ensures Valid() && nextId == old(nextId)
      ensures rows == if ProfileDiffers(u, identity) then PatchProfile(old(rows), u.id, identity) else old(rows)
    {
      if ProfileDiffers(u, identity) {
        PatchProfileKeepsInvariant(rows, nextId, u.id, identity);
        rows := PatchProfile(rows, u.id, identity);
      }
    }

    /** The new-user branch of `upsertUser`: generate an invite code, insert
        the document, read it back. */
    method InsertNewUser(identity: Identity, invitedByCode: Option<string>, draws: seq<Draw>)
      returns (r: Result<Option<User>, UserError>)
      requires Valid() && |draws| == MaxAttempts
      requires forall v :: v in rows ==> v.tokenIdentifier != identity.subject
      modifies this
      ensures Valid()
      ensures var gen := old(GenerateOutcome(rows, draws));
        && (gen.Ok? ==>
          var nu := User(old(nextId), identity.name, identity.email, identity.pictureUrl,
                         identity.subject, gen.value, invitedByCode, None);
          r == Ok(Some(nu)) && rows == old(rows) + [nu] && nextId == old(nextId) + 1)
        && (gen.Err? ==> r == Err(gen.error) && rows == old(rows) && nextId == old(nextId))
    {
      var code := GenerateUniqueInviteCode(draws);
      if code.Err? {
        return Err(code.error);
      }
      var nu := User(nextId, identity.name, identity.email, identity.pictureUrl, identity.subject,
                     code.value, invitedByCode, None);
      InsertKeepsInvariant(rows, nextId, nu);
      rows := rows + [nu];
      nextId := nextId + 1;
      r := Ok(Get(rows, nu.id));
      assert Get(rows, nu.id) == Some(nu) by {
        assert forall k :: 0 <= k < |rows| - 1 ==> rows[k].id != nu.id;
        GetFindsOnlyRow(rows, nu);
      }
    }

    /** `updatePhoneNumber`: a number that fails the format check throws
        and changes nothing; otherwise the user's phone number is set. */
    method UpdatePhoneNumber(userId: UserId, phone: string) returns (r: Result<bool, UserError>)
      requires Valid()
      modifies this
      ensures Valid() && nextId == old(nextId)
      ensures !IsValidPhoneNumber(phone) ==> r == Err(InvalidPhoneNumber) && rows == old(rows)
      ensures IsValidPhoneNumber(phone) && old(Get(rows, userId)).None? ==> r == Err(MissingDocument) && rows == old(rows)
      ensures IsValidPhoneNumber(phone) && old(Get(rows, userId)).Some? ==>
        r == Ok(true) && rows == PatchPhone(old(rows), userId, phone)
    {
      if !IsValidPhoneNumber(phone) {
        return Err(InvalidPhoneNumber);
      }
      if Get(rows, userId).None? {
        return Err(MissingDocument);
      }
      PatchPhoneKeepsInvariant(rows, nextId, userId, phone);
      rows := PatchPhone(rows, userId, phone);
      r := Ok(true);
    }
  }

  /** `get` finds a document whose id no earlier document has. */
  lemma {:induction false} GetFindsOnlyRow(rows: seq<User>, u: User)
    requires |rows| > 0 && rows[|rows| - 1] == u
    requires forall k :: 0 <= k < |rows| - 1 ==> rows[k].id != u.id
    ensures Get(rows, u.id) == Some(u)
  {
    if |rows| > 1 {
      GetFindsOnlyRow(rows[1..], u);
    }
  }
}
