/** The mobile audio import actions of the backend: `processImportedAudio`
    (one file, batch transcription, compensation on failure) and
    `processImportedAudioInChunks` (chunk-by-chunk transcription, fact
    de-duplication, summary combination, speaker mapping, one final save).

    The Convex runtime is a `Backend` object: the caller's identity, the
    users table (read only here), the conversations table, and the log of
    every mutation and speech-service call the two handlers issue, in
    order; the user lookups are reads of the table and are not logged. The
    `conversations.*` mutations write the fields their names say; the
    speech service is an oracle argument giving, per call, a result or the
    message of the error it throws. */
module MobileImport {
  import opened Wrappers
  import opened JsStrings
  import opened Users

  type StorageId = string
  type ConversationId = nat

  /** A conversation's status: whatever `conversations.create` gives it
      (`Open`), or `Ended`. */
  datatype Status = Open | Ended

  /** One turn as the speech service returns it: a chunk-local label. */
  datatype Turn = Turn(speaker: string, text: string)

  /** One turn after speaker mapping. */
  datatype MappedTurn = MappedTurn(userId: UserId, text: string)

  /** What `speechmaticsBatch.transcribeChunkOnly` returns for one chunk. */
  datatype ChunkResult = ChunkResult(
    transcript: seq<Turn>,
    s1Facts: seq<string>,
    s2Facts: seq<string>,
    summary: string)

  /** What the speech service does with one call: succeed, or throw an
      error carrying a message. */
  datatype Outcome<T> = Done(value: T) | Threw(message: string)

  datatype Conversation = Conversation(
    location: string,
    friend: Option<UserId>,
    audio: Option<StorageId>,
    status: Status,
    transcript: Option<seq<MappedTurn>>,
    s1Facts: seq<string>,
    s2Facts: seq<string>,
    summary: Option<string>)

  /** The store and speech-service calls the handlers make, with their
      arguments. */
  datatype Call =
    | CreateConversation(location: string)
    | LinkConversationToFriend(conversation: ConversationId, friend: UserId)
    | SaveAudioStorageId(conversation: ConversationId, audio: Option<StorageId>)
    | BatchTranscribe(storage: StorageId, conversation: ConversationId, initiatorName: string,
                      scannerName: string, userEmail: Option<string>, userName: Option<string>)
    | TranscribeChunkOnly(storage: StorageId)
    | UpdateStatus(conversation: ConversationId, status: Status)
    | SaveTranscriptData(conversation: ConversationId, data: Combined, initiatorName: string, scannerName: string)

  /** Everything the chunked handler writes in its one final save. */
  datatype Combined = Combined(
    transcript: seq<MappedTurn>,
    s1Facts: seq<string>,
    s2Facts: seq<string>,
    summary: string)

  datatype ImportError =
    | NotAuthenticated
    | CurrentUserNotFound
    | FriendNotFound
    | LookupFailed(cause: UserError)
    | ProcessAudioFailed(message: string)
    | ChunkFailed(chunkNum: nat, message: string)

  function ErrorMessage(e: ImportError): string
  {
    match e
    case NotAuthenticated => "Not authenticated"
    case CurrentUserNotFound => "Current user not found"
    case FriendNotFound => "Friend not found"
    case LookupFailed(cause) => Message(cause)
    case ProcessAudioFailed(m) => "Failed to process audio: " + m
    case ChunkFailed(n, m) => "Failed to process chunk " + DecimalString(n) + ": " + m
  }

  datatype ImportResult = ImportResult(conversationId: ConversationId, success: bool)

  const DefaultLocation := "Imported from Mobile"
  const SummaryHeader := "Combined conversation summary:\n\n"
  const SummaryFallback := "Conversation imported from mobile app."
  const PartSeparator := "\n\n"

  // ---------------------------------------------------------------------
  // Steps 1-2: caller and friend
  // ---------------------------------------------------------------------

  /** The checks both handlers make before writing anything: the caller's
      identity (single-file handler only), the current user, the friend. */
  function Preflight(identity: Option<Identity>, users: seq<User>, friendId: UserId, checkIdentity: bool)
    : (r: Result<(User, User), ImportError>)
    ensures checkIdentity && identity.None? ==> r == Err(NotAuthenticated)
    ensures !checkIdentity && identity.None? ==> r == Err(CurrentUserNotFound)
    ensures Get(users, friendId).None? ==> r.Err?
    ensures identity.Some? && GetCurrentUser(identity, users) == Ok(None) ==> r == Err(CurrentUserNotFound)
    ensures identity.Some? && GetCurrentUser(identity, users).Err? ==>
      r == Err(LookupFailed(GetCurrentUser(identity, users).error))
    ensures var me := GetCurrentUser(identity, users);
      me.Ok? && me.value.Some? && Get(users, friendId).None? ==> r == Err(FriendNotFound)
    ensures var me := GetCurrentUser(identity, users);
      me.Ok? && me.value.Some? && Get(users, friendId).Some? ==> r == Ok((me.value.value, Get(users, friendId).value))
    ensures r.Ok? ==>
      && identity.Some?
      && r.value.0 in users && r.value.0.tokenIdentifier == identity.value.subject
      && r.value.1 in users && r.value.1.id == friendId
  {
    if checkIdentity && identity.None? then Err(NotAuthenticated)
    else match GetCurrentUser(identity, users)
      case Err(e) => Err(LookupFailed(e))
      case Ok(None) => Err(CurrentUserNotFound)
      case Ok(Some(me)) =>
        match Get(users, friendId)
        case None => Err(FriendNotFound)
        case Some(friend) => Ok((me, friend))
  }

  // ---------------------------------------------------------------------
  // Steps 7-9: aggregation over the chunk results
  // ---------------------------------------------------------------------

  predicate NoDuplicates<T(==,!new)>(s: seq<T>)
  {
    forall i, j :: 0 <= i < j < |s| ==> s[i] != s[j]
  }

  /** Where `x` first occurs in `xs`. */
  function FirstIndex<T(==,!new)>(xs: seq<T>, x: T): (k: nat)
    requires x in xs
    ensures k < |xs| && xs[k] == x && x !in xs[..k]
  {
    if xs[0] == x then 0 else 1 + FirstIndex(xs[1..], x)
  }

  /** `[...new Set(xs)]`: each element once, in the order a Set first saw it. */
  function Dedup<T(==,!new)>(xs: seq<T>): (r: seq<T>)
    ensures NoDuplicates(r)
    ensures forall x :: x in r <==> x in xs
  {
    if xs == [] then []
    else
      var d := Dedup(xs[..|xs| - 1]);
      var x := xs[|xs| - 1];
      if x in d then d else d + [x]
  }

  lemma {:induction false} FirstIndexInPrefix<T(!new)>(a: seq<T>, b: seq<T>, y: T)
    requires y in a
    ensures FirstIndex(a + b, y) == FirstIndex(a, y)
  {
    if a[0] != y {
      assert (a + b)[1..] == a[1..] + b;
      FirstIndexInPrefix(a[1..], b, y);
    }
  }

  /** De-duplication keeps first-occurrence order: an element listed
      earlier in the result first occurred earlier in the input. */
  lemma {:induction false} DedupKeepsFirstOccurrenceOrder<T(!new)>(xs: seq<T>)
    ensures forall i, j :: 0 <= i < j < |Dedup(xs)| ==> FirstIndex(xs, Dedup(xs)[i]) < FirstIndex(xs, Dedup(xs)[j])
  {
    if xs != [] {
      var init := xs[..|xs| - 1];
      var x := xs[|xs| - 1];
      assert xs == init + [x];
      DedupKeepsFirstOccurrenceOrder(init);
      var d := Dedup(init);
      forall y | y in init
        ensures FirstIndex(xs, y) == FirstIndex(init, y) < |init|
      {
        FirstIndexInPrefix(init, [x], y);
      }
      if x !in d {
        assert FirstIndex(xs, x) == |init|;
        assert Dedup(xs) == d + [x];
      }
    }
  }

  /** A fact that occurs in an earlier list is never repeated by a later
      one: the merged list of two chunks is the first chunk's list followed
      by the second's new facts, e.g. [a, b] then [b, c] give [a, b, c]. */
  lemma {:induction false} DedupAppend<T(!new)>(a: seq<T>, b: seq<T>)
    requires NoDuplicates(a) && NoDuplicates(b)
    ensures Dedup(a + b) == a + FreshOf(a, b)
    decreases |b|
  {
    if b == [] {
      assert a + b == a;
      DedupOfDistinct(a);
    } else {
      var init := b[..|b| - 1];
      var y := b[|b| - 1];
      assert (a + b)[..|a + b| - 1] == a + init;
      assert (a + b)[|a + b| - 1] == y;
      DedupAppend(a, init);
      assert y !in init;
    }
  }

  /** The elements of `b` that are not in `a`, in order. */
  function FreshOf<T(==,!new)>(a: seq<T>, b: seq<T>): seq<T>
  {
    if b == [] then [] else FreshOf(a, b[..|b| - 1]) + (if b[|b| - 1] in a then [] else [b[|b| - 1]])
  }

  /** A list without repeats is left as it is. */
  lemma {:induction false} DedupOfDistinct<T(!new)>(xs: seq<T>)
    requires NoDuplicates(xs)
    ensures Dedup(xs) == xs
  {
    if xs != [] {
      var init := xs[..|xs| - 1];
      DedupOfDistinct(init);
      assert xs[|xs| - 1] !in init;
      assert xs == init + [xs[|xs| - 1]];
    }
  }

  /** `Part i: s` for the chunk at index `k` (so i = k + 1). */
  function PartLine(k: nat, s: string): string
  {
    "Part " + DecimalString(k + 1) + ": " + s
  }

  function PartLines(ss: seq<string>): (lines: seq<string>)
    ensures |lines| == |ss|
    ensures forall k :: 0 <= k < |ss| ==> lines[k] == PartLine(k, ss[k])
  {
    seq(|ss|, k requires 0 <= k < |ss| => PartLine(k, ss[k]))
  }

  /** Step 8: `allSummaries.length > 1 ? header + parts joined :
      allSummaries[0] || fallback`. */
  function CombineSummaries(ss: seq<string>): (r: string)
    ensures |ss| == 1 && ss[0] != "" ==> r == ss[0]
    ensures |ss| == 0 || (|ss| == 1 && ss[0] == "") ==> r == SummaryFallback
    ensures |ss| > 1 ==> StartsWith(r, SummaryHeader) && r[|SummaryHeader|..] == Join(PartLines(ss), PartSeparator)
  {
    if |ss| > 1 then SummaryHeader + Join(PartLines(ss), PartSeparator)
    else OrElse(if |ss| == 1 then Some(ss[0]) else None, SummaryFallback)
  }

  /** Step 9: `turn.speaker === "S1" ? currentUser._id : args.friendId`; no
      label is rejected. */
  function MapTurn(t: Turn, me: UserId, friendId: UserId): (m: MappedTurn)
    ensures m.text == t.text
    ensures m.userId == (if t.speaker == "S1" then me else friendId)
  {
    MappedTurn(if t.speaker == "S1" then me else friendId, t.text)
  }

  function MapSpeakers(ts: seq<Turn>, me: UserId, friendId: UserId): (ms: seq<MappedTurn>)
    ensures |ms| == |ts|
    ensures forall k :: 0 <= k < |ts| ==> ms[k] == MapTurn(ts[k], me, friendId)
  {
    seq(|ts|, k requires 0 <= k < |ts| => MapTurn(ts[k], me, friendId))
  }

  /** The concatenation, in chunk order, of each chunk's turns / facts /
      summary: what the loop's `push` calls accumulate. */
  function AllTurns(rs: seq<ChunkResult>): seq<Turn>
  {
    if rs == [] then [] else AllTurns(rs[..|rs| - 1]) + rs[|rs| - 1].transcript
  }

  function AllS1Facts(rs: seq<ChunkResult>): seq<string>
  {
    if rs == [] then [] else AllS1Facts(rs[..|rs| - 1]) + rs[|rs| - 1].s1Facts
  }

  function AllS2Facts(rs: seq<ChunkResult>): seq<string>
  {
    if rs == [] then [] else AllS2Facts(rs[..|rs| - 1]) + rs[|rs| - 1].s2Facts
  }

  function AllSummaries(rs: seq<ChunkResult>): (ss: seq<string>)
    ensures |ss| == |rs|
    ensures forall k :: 0 <= k < |rs| ==> ss[k] == rs[k].summary
  {
    seq(|rs|, k requires 0 <= k < |rs| => rs[k].summary)
  }

  /** Steps 7-9 on the accumulated lists: de-duplicate the facts, combine
      the summaries, map the speakers. */
  function CombineLists(turns: seq<Turn>, s1Facts: seq<string>, s2Facts: seq<string>, summaries: seq<string>,
                        me: UserId, friendId: UserId): Combined
  {
    Combined(MapSpeakers(turns, me, friendId), Dedup(s1Facts), Dedup(s2Facts), CombineSummaries(summaries))
  }

  /** What the final save writes for these chunk results. */
  function Combine(rs: seq<ChunkResult>, me: UserId, friendId: UserId): Combined
  {
    CombineLists(AllTurns(rs), AllS1Facts(rs), AllS2Facts(rs), AllSummaries(rs), me, friendId)
  }

  // ---------------------------------------------------------------------
  // Properties of the aggregation
  // ---------------------------------------------------------------------

  /** The saved transcript has one turn per transcribed turn, with the same
      text, in chunk-then-turn order; "S1" is the caller, anything else the
      friend. */
  lemma CombinedTranscript(rs: seq<ChunkResult>, me: UserId, friendId: UserId)
    ensures var t := Combine(rs, me, friendId).transcript;
      |t| == |AllTurns(rs)|
      && (forall k :: 0 <= k < |t| ==> t[k].text == AllTurns(rs)[k].text)
      && (forall k :: 0 <= k < |t| ==> (AllTurns(rs)[k].speaker == "S1" ==> t[k].userId == me))
      && (forall k :: 0 <= k < |t| ==> (AllTurns(rs)[k].speaker != "S1" ==> t[k].userId == friendId))
  {
  }

  /** Mapping the merged transcript is mapping each chunk's turns and
      concatenating in chunk order: chunk i's turns all precede chunk
      i+1's. */
  lemma {:induction false} MapSpeakersPerChunk(rs: seq<ChunkResult>, me: UserId, friendId: UserId)
    ensures MapSpeakers(AllTurns(rs), me, friendId) == MappedPerChunk(rs, me, friendId)
  {
    if rs != [] {
      var init := rs[..|rs| - 1];
      MapSpeakersPerChunk(init, me, friendId);
      MapSpeakersAppend(AllTurns(init), rs[|rs| - 1].transcript, me, friendId);
    }
  }

  function MappedPerChunk(rs: seq<ChunkResult>, me: UserId, friendId: UserId): seq<MappedTurn>
  {
    if rs == [] then [] else MappedPerChunk(rs[..|rs| - 1], me, friendId) + MapSpeakers(rs[|rs| - 1].transcript, me, friendId)
  }

  lemma MapSpeakersAppend(a: seq<Turn>, b: seq<Turn>, me: UserId, friendId: UserId)
    ensures MapSpeakers(a + b, me, friendId) == MapSpeakers(a, me, friendId) + MapSpeakers(b, me, friendId)
  {
    var l := MapSpeakers(a + b, me, friendId);
    var r := MapSpeakers(a, me, friendId) + MapSpeakers(b, me, friendId);
    assert |l| == |r|;
    forall k | 0 <= k < |l| ensures l[k] == r[k] {
      if k < |a| { assert (a + b)[k] == a[k]; } else { assert (a + b)[k] == b[k - |a|]; }
    }
  }

  /** The merged fact lists have no repeats, hold exactly the facts of all
      chunks, and keep first-occurrence order. */
  lemma CombinedFacts(rs: seq<ChunkResult>, me: UserId, friendId: UserId)
    ensures var c := Combine(rs, me, friendId);
      && NoDuplicates(c.s1Facts) && NoDuplicates(c.s2Facts)
      && (forall f :: f in c.s1Facts <==> f in AllS1Facts(rs))
      && (forall f :: f in c.s2Facts <==> f in AllS2Facts(rs))
      && (forall i, j :: 0 <= i < j < |c.s1Facts| ==>
            FirstIndex(AllS1Facts(rs), c.s1Facts[i]) < FirstIndex(AllS1Facts(rs), c.s1Facts[j]))
      && (forall i, j :: 0 <= i < j < |c.s2Facts| ==>
            FirstIndex(AllS2Facts(rs), c.s2Facts[i]) < FirstIndex(AllS2Facts(rs), c.s2Facts[j]))
  {
    DedupKeepsFirstOccurrenceOrder(AllS1Facts(rs));
    DedupKeepsFirstOccurrenceOrder(AllS2Facts(rs));
  }

  /** With no chunk the save gets an empty transcript, no facts and the
      fallback summary. */
  lemma CombineNoChunks(me: UserId, friendId: UserId)
    ensures Combine([], me, friendId) == Combined([], [], [], SummaryFallback)
  {
  }

  /** One chunk: its summary verbatim, unless it is empty (`"" || fallback`). */
  lemma CombineOneChunk(r: ChunkResult, me: UserId, friendId: UserId)
    ensures Combine([r], me, friendId).summary == if r.summary != "" then r.summary else SummaryFallback
  {
    assert AllSummaries([r]) == [r.summary];
  }

  /** Two chunks or more: when no summary contains a line break, splitting
      the composite after its header on blank lines gives back exactly one
      `Part i: s_i` line per chunk, in chunk order, numbered from 1. */
  lemma CombinedSummaryParts(ss: seq<string>)
    requires |ss| > 1
    requires forall k :: 0 <= k < |ss| ==> '\n' !in ss[k]
    ensures var r := CombineSummaries(ss);
      StartsWith(r, SummaryHeader) && Split(r[|SummaryHeader|..], PartSeparator) == PartLines(ss)
  {
    var lines := PartLines(ss);
    forall k | 0 <= k < |lines| ensures '\n' !in lines[k] {
      NoNewlineInPart(k, ss[k]);
    }
    SplitJoinedLines(lines);
  }

  lemma NoNewlineInPart(k: nat, s: string)
    requires '\n' !in s
    ensures '\n' !in PartLine(k, s)
  {
    var d := DecimalString(k + 1);
    assert forall i :: 0 <= i < |d| ==> IsDigit(d[i]);
  }

  /** A line without a line break followed by a blank-line separator: the
      first separator is the one right after the line. */
  lemma IndexOfAfterLine(line: string, rest: string)
    requires '\n' !in line
    ensures IndexOf(line + PartSeparator + rest, PartSeparator, 0) == Some(|line|)
  {
    var s := line + PartSeparator + rest;
    assert s[|line|..|line| + 2] == PartSeparator;
    assert OccursAt(s, PartSeparator, |line|);
    forall q: nat | q < |line| ensures !OccursAt(s, PartSeparator, q) {
      assert s[q] == line[q];
    }
  }

  lemma NoSeparatorInLine(line: string)
    requires '\n' !in line
    ensures IndexOf(line, PartSeparator, 0) == None
  {
    forall q: nat | q < |line| ensures !OccursAt(line, PartSeparator, q) {
      if q + |PartSeparator| <= |line| {
        assert line[q..q + |PartSeparator|][0] == line[q];
      }
    }
  }

  /** Lines free of line breaks, joined on blank lines, split back into the
      same lines. */
  lemma {:induction false} SplitJoinedLines(lines: seq<string>)
    requires |lines| >= 1
    requires forall k :: 0 <= k < |lines| ==> '\n' !in lines[k]
    ensures Split(Join(lines, PartSeparator), PartSeparator) == lines
    decreases |lines|
  {
    if |lines| == 1 {
      NoSeparatorInLine(lines[0]);
    } else {
      var line := lines[0];
      var tail := lines[1..];
      var rest := Join(tail, PartSeparator);
      var s := line + PartSeparator + rest;
      assert Join(lines, PartSeparator) == s;
      IndexOfAfterLine(line, rest);
      SplitJoinedLines(tail);
      assert s[..|line|] == line;
      assert s[|line| + 2..] == rest;
      assert Split(s, PartSeparator) == [line] + Split(rest, PartSeparator);
      assert lines == [line] + tail;
    }
  }

  // ---------------------------------------------------------------------
  // The chunk loop's outcome
  // ---------------------------------------------------------------------

  /** The index of the first chunk whose transcription throws. */
  function FirstFailure(outcomes: seq<Outcome<ChunkResult>>): (r: Option<nat>)
    ensures r.Some? ==>
      (r.value < |outcomes| && outcomes[r.value].Threw?
       && forall j :: 0 <= j < r.value ==> outcomes[j].Done?)
    ensures r.None? ==> forall j :: 0 <= j < |outcomes| ==> outcomes[j].Done?
  {
    if outcomes == [] then None
    else if outcomes[0].Threw? then Some(0)
    else match FirstFailure(outcomes[1..])
      case None => None
      case Some(k) => Some(k + 1)
  }

  /** The chunk results of a run of calls that all succeeded. */
  function Results(outcomes: seq<Outcome<ChunkResult>>): (rs: seq<ChunkResult>)
    requires forall j :: 0 <= j < |outcomes| ==> outcomes[j].Done?
    ensures |rs| == |outcomes|
    ensures forall j :: 0 <= j < |outcomes| ==> rs[j] == outcomes[j].value
  {
    seq(|outcomes|, j requires 0 <= j < |outcomes| => outcomes[j].value)
  }

  function ChunkCalls(ids: seq<StorageId>): (cs: seq<Call>)
    ensures |cs| == |ids|
    ensures forall j :: 0 <= j < |ids| ==> cs[j] == TranscribeChunkOnly(ids[j])
  {
    seq(|ids|, j requires 0 <= j < |ids| => TranscribeChunkOnly(ids[j]))
  }

  /** `args.storageIds[0]`, `undefined` for an empty list. */
  function FirstStorage(ids: seq<StorageId>): Option<StorageId>
  {
    if ids == [] then None else Some(ids[0])
  }

  // ---------------------------------------------------------------------
  // The calls each handler makes
  // ---------------------------------------------------------------------

  /** Steps 3-5 of both handlers: create, link, attach the audio. */
  function PrepareCalls(c: ConversationId, location: Option<string>, friendId: UserId, audio: Option<StorageId>): seq<Call>
  {
    [ CreateConversation(OrElse(location, DefaultLocation)),
      LinkConversationToFriend(c, friendId),
      SaveAudioStorageId(c, audio) ]
  }

  /** The calls of `processImportedAudio` after the conversation is set
      up: the batch transcription, then, if it throws, ending the
      conversation. */
  function SingleTail(c: ConversationId, storageId: StorageId, me: User, friend: User, batch: Outcome<()>): seq<Call>
  {
    [BatchTranscribe(storageId, c, OrElse(me.name, "You"), OrElse(friend.name, "Friend"), me.email, me.name)]
    + (if batch.Threw? then [UpdateStatus(c, Ended)] else [])
  }

  /** The conversation after the single-file handler's step 6: ended if
      the transcription threw. */
  function AfterBatch(conv: Conversation, batch: Outcome<()>): Conversation
  {
    if batch.Threw? then conv.(status := Ended) else conv
  }

  /** What the single-file handler returns once the conversation is set up:
      success exactly when the transcription returned, and otherwise the
      error `Failed to process audio: <message>`. */
  function SingleOutcome(c: ConversationId, batch: Outcome<()>): (r: Result<ImportResult, ImportError>)
    ensures r.Ok? <==> batch.Done?
    ensures r.Ok? ==> r.value == ImportResult(c, true)
    ensures batch.Threw? ==> ErrorMessage(r.error) == "Failed to process audio: " + batch.message
  {
    match batch
    case Done(_) => Ok(ImportResult(c, true))
    case Threw(message) => Err(ProcessAudioFailed(message))
  }

  /** The calls of the chunked handler after the conversation is set up:
      the chunks up to the first failure, or all of them and the save. */
  function ChunkedTail(c: ConversationId, storageIds: seq<StorageId>, friendId: UserId,
                       me: User, friend: User, outcomes: seq<Outcome<ChunkResult>>): seq<Call>
    requires |outcomes| == |storageIds|
  {
    match FirstFailure(outcomes)
    case Some(k) => ChunkCalls(storageIds[..k + 1])
    case None =>
      ChunkCalls(storageIds)
      + [SaveTranscriptData(c, Combine(Results(outcomes), me.id, friendId),
                            OrElse(me.name, "You"), OrElse(friend.name, "Friend"))]
  }

  /** The conversation after the chunked handler's steps 6-10: as it was
      if a chunk failed, otherwise with the combined data saved. */
  function AfterChunks(conv: Conversation, me: UserId, friendId: UserId, outcomes: seq<Outcome<ChunkResult>>): Conversation
  {
    match FirstFailure(outcomes)
    case Some(_) => conv
    case None =>
      var data := Combine(Results(outcomes), me, friendId);
      conv.(transcript := Some(data.transcript), s1Facts := data.s1Facts,
            s2Facts := data.s2Facts, summary := Some(data.summary))
  }

  /** What the chunked handler returns once the conversation is set up:
      success exactly when every chunk returned, and otherwise the error
      `Failed to process chunk <n>: <message>` for the first chunk that
      threw, numbered from 1. */
  function ChunkedOutcome(c: ConversationId, outcomes: seq<Outcome<ChunkResult>>): (r: Result<ImportResult, ImportError>)
    ensures r.Ok? <==> FirstFailure(outcomes).None?
    ensures r.Ok? ==> r.value == ImportResult(c, true)
    ensures r.Err? ==> ErrorMessage(r.error) == "Failed to process chunk " + DecimalString(FirstFailure(outcomes).value + 1)
                                               + ": " + outcomes[FirstFailure(outcomes).value].message
  {
    match FirstFailure(outcomes)
    case Some(k) => Err(ChunkFailed(k + 1, outcomes[k].message))
    case None => Ok(ImportResult(c, true))
  }

  /** Single file: create, link, save audio, transcribe, in that order,
      at the given or the default location; a failed transcription is
      followed by exactly one more call, which ends the conversation. */
  lemma SingleImportOrder(c: ConversationId, storageId: StorageId, friendId: UserId, location: Option<string>,
                          me: User, friend: User, batch: Outcome<()>)
    ensures var cs := PrepareCalls(c, location, friendId, Some(storageId)) + SingleTail(c, storageId, me, friend, batch);
      && |cs| == (if batch.Threw? then 5 else 4)
      && cs[0].CreateConversation?
      && (cs[0].location == if location.Some? && location.value != "" then location.value else DefaultLocation)
      && cs[1] == LinkConversationToFriend(c, friendId)
      && cs[2] == SaveAudioStorageId(c, Some(storageId))
      && cs[3].BatchTranscribe? && cs[3].storage == storageId && cs[3].conversation == c
      && (batch.Threw? ==> cs[4] == UpdateStatus(c, Ended))
      && (forall j :: 0 <= j < |cs| ==> !cs[j].SaveTranscriptData?)
  {
  }

  /** Chunked, first failure at chunk k: after the set-up calls, chunks
      0..k were sent in index order, and nothing is saved and no status is
      changed. */
  lemma ChunkedFailureSavesNothing(c: ConversationId, storageIds: seq<StorageId>, friendId: UserId, location: Option<string>,
                                   me: User, friend: User, outcomes: seq<Outcome<ChunkResult>>)
    requires |outcomes| == |storageIds| && FirstFailure(outcomes).Some?
    ensures var cs := PrepareCalls(c, location, friendId, FirstStorage(storageIds))
                      + ChunkedTail(c, storageIds, friendId, me, friend, outcomes);
      var k := FirstFailure(outcomes).value;
      && |cs| == 3 + k + 1
      && (forall j :: 0 <= j <= k ==> cs[3 + j] == TranscribeChunkOnly(storageIds[j]))
      && (forall j :: 0 <= j < |cs| ==> !cs[j].SaveTranscriptData? && !cs[j].UpdateStatus?)
  {
    var k := FirstFailure(outcomes).value;
    var head := PrepareCalls(c, location, friendId, FirstStorage(storageIds));
    var tail := ChunkedTail(c, storageIds, friendId, me, friend, outcomes);
    assert tail == ChunkCalls(storageIds[..k + 1]);
    var cs := head + tail;
    forall j | 0 <= j < |cs|
      ensures !cs[j].SaveTranscriptData? && !cs[j].UpdateStatus?
    {
      if j < 3 { assert cs[j] == head[j]; } else { assert cs[j] == tail[j - 3]; }
    }
    forall j | 0 <= j <= k
      ensures cs[3 + j] == TranscribeChunkOnly(storageIds[j])
    {
      assert cs[3 + j] == tail[j];
    }
  }

  /** Chunked, every chunk transcribed: after the set-up calls, all chunks
      were sent in index order, then exactly one save, last, carrying the
      combined data. */
  lemma ChunkedSuccessSavesOnce(c: ConversationId, storageIds: seq<StorageId>, friendId: UserId, location: Option<string>,
                                me: User, friend: User, outcomes: seq<Outcome<ChunkResult>>)
    requires |outcomes| == |storageIds| && FirstFailure(outcomes).None?
    ensures var cs := PrepareCalls(c, location, friendId, FirstStorage(storageIds))
                      + ChunkedTail(c, storageIds, friendId, me, friend, outcomes);
      && |cs| == 3 + |storageIds| + 1
      && (forall j :: 0 <= j < |storageIds| ==> cs[3 + j] == TranscribeChunkOnly(storageIds[j]))
      && (forall j :: 0 <= j < |cs| - 1 ==> !cs[j].SaveTranscriptData? && !cs[j].UpdateStatus?)
      && cs[|cs| - 1].SaveTranscriptData?
      && cs[|cs| - 1].data == Combine(Results(outcomes), me.id, friendId)
  {
    var head := PrepareCalls(c, location, friendId, FirstStorage(storageIds));
    var save := SaveTranscriptData(c, Combine(Results(outcomes), me.id, friendId),
                                   OrElse(me.name, "You"), OrElse(friend.name, "Friend"));
    var chunks := ChunkCalls(storageIds);
    var tail := ChunkedTail(c, storageIds, friendId, me, friend, outcomes);
    assert tail == chunks + [save];
    var cs := head + tail;
    assert cs[|cs| - 1] == save;
    forall j | 0 <= j < |cs| - 1
      ensures !cs[j].SaveTranscriptData? && !cs[j].UpdateStatus?
    {
      if j < 3 { assert cs[j] == head[j]; } else { assert cs[j] == chunks[j - 3]; }
    }
    forall j | 0 <= j < |storageIds|
      ensures cs[3 + j] == TranscribeChunkOnly(storageIds[j])
    {
      assert cs[3 + j] == chunks[j];
    }
  }

  // ---------------------------------------------------------------------
  // The backend state and the two actions
  // ---------------------------------------------------------------------

  lemma ChunkCallsStep(ids: seq<StorageId>, i: nat)
    requires i < |ids|
    ensures ChunkCalls(ids[..i + 1]) == ChunkCalls(ids[..i]) + [TranscribeChunkOnly(ids[i])]
  {
  }

  /** One more successful chunk extends every accumulated list by that
      chunk's part. */
  lemma ResultsStep(outcomes: seq<Outcome<ChunkResult>>, i: nat)
    requires i < |outcomes| && forall j :: 0 <= j <= i ==> outcomes[j].Done?
    ensures var rs := Results(outcomes[..i]);
      var next := Results(outcomes[..i + 1]);
      var chunk := outcomes[i].value;
      && next == rs + [chunk]
      && AllTurns(next) == AllTurns(rs) + chunk.transcript
      && AllS1Facts(next) == AllS1Facts(rs) + chunk.s1Facts
      && AllS2Facts(next) == AllS2Facts(rs) + chunk.s2Facts
      && AllSummaries(next) == AllSummaries(rs) + [chunk.summary]
  {
    var rs := Results(outcomes[..i]);
    var next := Results(outcomes[..i + 1]);
    assert next == rs + [outcomes[i].value];
    assert next[..|next| - 1] == rs;
  }

  /** What `conversations.create` stores. */
  function Created(location: string): Conversation
  {
    Conversation(location, None, None, Open, None, [], [], None)
  }

  /** The conversation after create, link and save-audio. */
  function Prepared(location: Option<string>, friendId: UserId, audio: Option<StorageId>): Conversation
  {
    Created(OrElse(location, DefaultLocation)).(friend := Some(friendId), audio := audio)
  }

  class Backend {
    var identity: Option<Identity>
    var users: seq<User>
    var conversations: map<ConversationId, Conversation>
    var nextConversation: ConversationId
    var calls: seq<Call>

    ghost predicate Valid()
      reads this
    {
      forall c :: c in conversations ==> c < nextConversation
    }

    constructor (identity: Option<Identity>, users: seq<User>)
      ensures Valid()
      ensures this.identity == identity && this.users == users
      ensures conversations == map[] && calls == []
    {
      this.identity := identity;
      this.users := users;
      conversations := map[];
      nextConversation := 0;
      calls := [];
    }

    /** `conversations.create`: a new conversation with a fresh id. */
    method Create(location: string) returns (c: ConversationId)
      requires Valid()
      modifies this
      ensures Valid() && identity == old(identity) && users == old(users)
      ensures c == old(nextConversation) && c !in old(conversations)
      ensures conversations == old(conversations)[c := Created(location)]
      ensures calls == old(calls) + [CreateConversation(location)]
    {
      c := nextConversation;
      nextConversation := nextConversation + 1;
      conversations := conversations[c := Created(location)];
      calls := calls + [CreateConversation(location)];
    }

    /** `conversations.linkConversationToFriend`. */
    method LinkFriend(c: ConversationId, friendId: UserId)
      requires Valid() && c in conversations
      modifies this
      ensures Valid() && identity == old(identity) && users == old(users) && nextConversation == old(nextConversation)
      ensures conversations == old(conversations)[c := old(conversations)[c].(friend := Some(friendId))]
      ensures calls == old(calls) + [LinkConversationToFriend(c, friendId)]
    {
      conversations := conversations[c := conversations[c].(friend := Some(friendId))];
      calls := calls + [LinkConversationToFriend(c, friendId)];
    }

    /** `conversations.saveAudioStorageId`. */
    method SaveAudio(c: ConversationId, storage: Option<StorageId>)
      requires Valid() && c in conversations
      modifies this
      ensures Valid() && identity == old(identity) && users == old(users) && nextConversation == old(nextConversation)
      ensures conversations == old(conversations)[c := old(conversations)[c].(audio := storage)]
      ensures calls == old(calls) + [SaveAudioStorageId(c, storage)]
    {
      conversations := conversations[c := conversations[c].(audio := storage)];
      calls := calls + [SaveAudioStorageId(c, storage)];
    }

    /** `conversations.updateStatus`. */
    method SetStatus(c: ConversationId, status: Status)
      requires Valid() && c in conversations
      modifies this
      ensures Valid() && identity == old(identity) && users == old(users) && nextConversation == old(nextConversation)
      ensures conversations == old(conversations)[c := old(conversations)[c].(status := status)]
      ensures calls == old(calls) + [UpdateStatus(c, status)]
    {
      conversations := conversations[c := conversations[c].(status := status)];
      calls := calls + [UpdateStatus(c, status)];
    }

    /** `conversations.saveTranscriptData`. */
    method SaveTranscript(c: ConversationId, data: Combined, initiatorName: string, scannerName: string)
      requires Valid() && c in conversations
      modifies this
      ensures Valid() && identity == old(identity) && users == old(users) && nextConversation == old(nextConversation)
      ensures conversations == old(conversations)[c := old(conversations)[c].(
        transcript := Some(data.transcript), s1Facts := data.s1Facts, s2Facts := data.s2Facts, summary := Some(data.summary))]
      ensures calls == old(calls) + [SaveTranscriptData(c, data, initiatorName, scannerName)]
    {
      conversations := conversations[c := conversations[c].(
        transcript := Some(data.transcript), s1Facts := data.s1Facts, s2Facts := data.s2Facts, summary := Some(data.summary))];
      calls := calls + [SaveTranscriptData(c, data, initiatorName, scannerName)];
    }

    /** Steps 3-5 of both actions: create the conversation at the given or
        the default location, link the friend, attach the audio. */
    method Prepare(location: Option<string>, friendId: UserId, audio: Option<StorageId>) returns (c: ConversationId)
      requires Valid()
      modifies this
      ensures Valid() && identity == old(identity) && users == old(users)
      ensures c == old(nextConversation) && c !in old(conversations)
      ensures conversations == old(conversations)[c := Prepared(location, friendId, audio)]
      ensures calls == old(calls) + PrepareCalls(c, location, friendId, audio)
    {
      c := Create(OrElse(location, DefaultLocation));
      LinkFriend(c, friendId);
      SaveAudio(c, audio);
    }

    /** Step 6 of `processImportedAudio` on the prepared conversation `c`:
        batch transcription; if it throws, end the conversation and throw
        "Failed to process audio: ...". */
    method TranscribeBatch(c: ConversationId, storageId: StorageId, me: User, friend: User, batch: Outcome<()>)
      returns (r: Result<ImportResult, ImportError>)
      requires Valid() && c in conversations
      modifies this
      ensures Valid() && identity == old(identity) && users == old(users)
      ensures calls == old(calls) + SingleTail(c, storageId, me, friend, batch)
      ensures r == SingleOutcome(c, batch)
      ensures r.Err? ==> ErrorMessage(r.error) == "Failed to process audio: " + batch.message
      ensures conversations == old(conversations)[c := AfterBatch(old(conversations)[c], batch)]
    {
      var transcribe := BatchTranscribe(storageId, c, OrElse(me.name, "You"), OrElse(friend.name, "Friend"), me.email, me.name);
      calls := calls + [transcribe];
      match batch {
        case Done(_) =>
          assert conversations == old(conversations)[c := old(conversations)[c]];
          r := Ok(ImportResult(c, true));
        case Threw(message) =>
          SetStatus(c, Ended);
          assert calls == old(calls) + ([transcribe] + [UpdateStatus(c, Ended)]);
          r := Err(ProcessAudioFailed(message));
      }
    }

    /** `processImportedAudio`. `batch` is what `batchTranscribe` does. A
        failed check writes nothing; otherwise the calls are the set-up
        calls and SingleTail, and a failed transcription leaves the new
        conversation `Ended`, without transcript, and throws "Failed to
        process audio: ...". */
    method ProcessImportedAudio(storageId: StorageId, friendId: UserId, location: Option<string>, batch: Outcome<()>)
      returns (r: Result<ImportResult, ImportError>)
      requires Valid()
      modifies this
      ensures Valid() && identity == old(identity) && users == old(users)
      ensures var pre := Preflight(identity, users, friendId, true);
        pre.Err? ==> r == Err(pre.error) && conversations == old(conversations) && calls == old(calls)
      ensures var pre := Preflight(identity, users, friendId, true);
        pre.Ok? ==>
          var c := old(nextConversation);
          && c !in old(conversations)
          && calls == old(calls) + PrepareCalls(c, location, friendId, Some(storageId))
                      + SingleTail(c, storageId, pre.value.0, pre.value.1, batch)
          && r == SingleOutcome(c, batch)
          && conversations == old(conversations)[c := AfterBatch(Prepared(location, friendId, Some(storageId)), batch)]
    {
      // Steps 1-2: the caller, the current user, the friend
      var pre := Preflight(identity, users, friendId, true);
      if pre.Err? {
        return Err(pre.error);
      }
      var (me, friend) := pre.value;
      // Steps 3-5: create, link, attach the audio
      var c := Prepare(location, friendId, Some(storageId));
      // Step 6: transcribe; on failure end the conversation and rethrow
      r := TranscribeBatch(c, storageId, me, friend, batch);
    }

    /** The loop of `processImportedAudioInChunks`: chunk i is sent to
        `transcribeChunkOnly`; a throw stops the loop and is reported with
        the chunk's index, otherwise the results are appended to the
        transcript, fact and summary lists. */
    method TranscribeChunks(storageIds: seq<StorageId>, outcomes: seq<Outcome<ChunkResult>>)
      returns (failed: Option<(nat, string)>, allTranscripts: seq<Turn>, allS1Facts: seq<string>,
               allS2Facts: seq<string>, allSummaries: seq<string>)
      requires Valid() && |outcomes| == |storageIds|
      modifies this
      ensures Valid() && identity == old(identity) && users == old(users)
      ensures conversations == old(conversations) && nextConversation == old(nextConversation)
      ensures match FirstFailure(outcomes)
        case Some(k) =>
          && failed == Some((k, outcomes[k].message))
          && calls == old(calls) + ChunkCalls(storageIds[..k + 1])
        case None =>
          && failed == None
          && calls == old(calls) + ChunkCalls(storageIds)
          && allTranscripts == AllTurns(Results(outcomes))
          && allS1Facts == AllS1Facts(Results(outcomes))
          && allS2Facts == AllS2Facts(Results(outcomes))
          && allSummaries == AllSummaries(Results(outcomes))
    {
      allTranscripts, allS1Facts, allS2Facts, allSummaries := [], [], [], [];
      var sent: seq<Call> := [];
      var i := 0;
      while i < |storageIds|
        invariant 0 <= i <= |storageIds|
        invariant unchanged(this)
        invariant forall j :: 0 <= j < i ==> outcomes[j].Done?
        invariant sent == ChunkCalls(storageIds[..i])
        invariant allTranscripts == AllTurns(Results(outcomes[..i]))
        invariant allS1Facts == AllS1Facts(Results(outcomes[..i]))
        invariant allS2Facts == AllS2Facts(Results(outcomes[..i]))
        invariant allSummaries == AllSummaries(Results(outcomes[..i]))
      {
        sent := sent + [TranscribeChunkOnly(storageIds[i])];
        ChunkCallsStep(storageIds, i);
        match outcomes[i] {
          case Threw(message) =>
            assert FirstFailure(outcomes) == Some(i);
            calls := calls + sent;
            return Some((i, message)), allTranscripts, allS1Facts, allS2Facts, allSummaries;
          case Done(chunk) =>
            ResultsStep(outcomes, i);
            allTranscripts := allTranscripts + chunk.transcript;
            allS1Facts := allS1Facts + chunk.s1Facts;
            allS2Facts := allS2Facts + chunk.s2Facts;
            allSummaries := allSummaries + [chunk.summary];
        }
        i := i + 1;
      }
      assert outcomes[..i] == outcomes && storageIds[..i] == storageIds;
      calls := calls + sent;
      failed := None;
    }

    /** Steps 6-10 of `processImportedAudioInChunks` on the prepared
        conversation `c`: transcribe the chunks, stop at the first failure
        with "Failed to process chunk i+1: ...", otherwise save the
        combined data once. */
    method ImportChunks(c: ConversationId, storageIds: seq<StorageId>, friendId: UserId, me: User, friend: User,
                        outcomes: seq<Outcome<ChunkResult>>)
      returns (r: Result<ImportResult, ImportError>)
      requires Valid() && c in conversations && |outcomes| == |storageIds|
      modifies this
      ensures Valid() && identity == old(identity) && users == old(users)
      ensures calls == old(calls) + ChunkedTail(c, storageIds, friendId, me, friend, outcomes)
      ensures r == ChunkedOutcome(c, outcomes)
      ensures conversations == old(conversations)[c := AfterChunks(old(conversations)[c], me.id, friendId, outcomes)]
    {
      // Step 6: transcribe the chunks in order; the first failure aborts
      var failed, allTranscripts, allS1Facts, allS2Facts, allSummaries := TranscribeChunks(storageIds, outcomes);
      if failed.Some? {
        return Err(ChunkFailed(failed.value.0 + 1, failed.value.1));
      }
      // Steps 7-9: de-duplicate facts, combine summaries, map speakers
      var data := CombineLists(allTranscripts, allS1Facts, allS2Facts, allSummaries, me.id, friendId);
      // Step 10: the one save
      SaveTranscript(c, data, OrElse(me.name, "You"), OrElse(friend.name, "Friend"));
      r := Ok(ImportResult(c, true));
    }

    /** `processImportedAudioInChunks`. `outcomes[i]` is what
        `transcribeChunkOnly` does with chunk i. A failed check writes
        nothing; otherwise the calls are the set-up calls and ChunkedTail: a
        failing chunk throws "Failed to process chunk i+1: ..." and leaves
        the conversation as create, link and save-audio left it; when all
        succeed, one save writes the combined data. */
    method ProcessImportedAudioInChunks(storageIds: seq<StorageId>, friendId: UserId, location: Option<string>,
                                        outcomes: seq<Outcome<ChunkResult>>)
      returns (r: Result<ImportResult, ImportError>)
      requires Valid() && |outcomes| == |storageIds|
      modifies this
      ensures Valid() && identity == old(identity) && users == old(users)
      ensures var pre := Preflight(identity, users, friendId, false);
        pre.Err? ==> r == Err(pre.error) && conversations == old(conversations) && calls == old(calls)
      ensures var pre := Preflight(identity, users, friendId, false);
        pre.Ok? ==>
          var c := old(nextConversation);
          var prepared := Prepared(location, friendId, FirstStorage(storageIds));
          && c !in old(conversations)
          && calls == old(calls) + PrepareCalls(c, location, friendId, FirstStorage(storageIds))
                      + ChunkedTail(c, storageIds, friendId, pre.value.0, pre.value.1, outcomes)
          && r == ChunkedOutcome(c, outcomes)
          && conversations == old(conversations)[c := AfterChunks(prepared, pre.value.0.id, friendId, outcomes)]
    {
      // Steps 1-2: the current user (no separate identity check here), the friend
      var pre := Preflight(identity, users, friendId, false);
      if pre.Err? {
        return Err(pre.error);
      }
      var (me, friend) := pre.value;
      // Steps 3-5: create, link, attach the first chunk for playback
      var c := Prepare(location, friendId, FirstStorage(storageIds));
      // Steps 6-10
      r := ImportChunks(c, storageIds, friendId, me, friend, outcomes);
    }
  }
}
