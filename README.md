# Audora: the mobile import pipeline and its neighbours, in Dafny

Audora records or imports conversations between two people, transcribes
them, and stores the transcript, the facts each speaker shared and a
summary. This project models the parts of the repository that decide what
gets stored and where a user is sent. Each part is proved against its own
specification.

- **Mobile audio import** (`MobileImport`). The backend actions
  `processImportedAudio` and `processImportedAudioInChunks` are methods of a
  `Backend` class. The class holds the caller's identity, the users table,
  a conversations map and a log of every mutation and speech-service call
  in order. The user lookups read the table and are not logged. The speech service is an oracle argument that gives, per call, a
  result or a thrown message. The aggregation steps are pure functions with
  lemmas:
  - fact de-duplication, like `[...new Set(xs)]`;
  - the combined summary;
  - speaker mapping.
- **Users table** (`Users`). The index lookups are functions over a
  sequence of documents. `upsertUser`, the 20-attempt invite-code search and
  `updatePhoneNumber` are methods of a `UserTable` class, which keeps ids,
  tokens and invite codes unique. Each `Math.random()` draw is an integer
  in 0..9999 passed in.
- **Invite gate of the web sign-in and sign-up routes** (`InviteGate`).
  This is the server-side `Cookie` header parser, the `ALLOWLIST_EMAILS`
  normalisation and the route `loader`. `apps/web/app/routes/sign-up.tsx`
  lines 6-40 are the same text as `apps/web/app/routes/sign-in.tsx` lines
  6-40, so one model covers both files.
- **User sync** (`UserSync`). This is the browser-side `getCookie` and the
  sync-once flag of the `UserSync` component.
- **Mobile root navigator** (`RootLayout`): the redirect rule.
- **Homepage call to action** (`Integrations`): the link and text table.
- **Import screen** (`ImportAudio`). This covers:
  - the audio-file filter;
  - friend/solo selection;
  - the start guard;
  - the stage and progress sequence;
  - "Try Again".
- **Whisper upload preparation** (`WhisperTranscription`): the MIME-type
  default, the extension table with its `m4a` fallback, and the file name.

`JsStrings` models the JavaScript string operations this code relies on:
`split` with a non-empty separator, `join`, `trim`, ASCII `toLowerCase`,
`startsWith`, `endsWith`, `String(n)`, `padStart` and `x || y` on optional
strings. `Wrappers` holds `Option` and `Result`.

Thrown errors become `Err` values, and JavaScript `null`/`undefined`
becomes `None`. The claims below are proved by the verifier.

## Model

| member | source | states |
|---|---|---|
| MobileImport.Preflight | packages/backend/convex/mobileImport.ts:26-41 | With no identity, the single-file action fails with "Not authenticated". The chunked action, which has no identity check, fails with "Current user not found". An identity with no user fails with "Current user not found", and a failed lookup passes its error on. With the caller's user found, a missing friend fails with "Friend not found". When both exist, the checks succeed and yield the caller's document (token = identity subject) and the friend's document. |
| MobileImport.Backend.ProcessImportedAudio | packages/backend/convex/mobileImport.ts:22-89 | A failed check writes nothing and logs no call. Otherwise the log gains create, link, save-audio (the given or default location) and the batch transcription. A failed transcription then adds exactly one status update to `Ended` and throws "Failed to process audio: …". Success returns {conversationId, success: true} with the new conversation otherwise as set up. |
| MobileImport.Backend.Prepare | packages/backend/convex/mobileImport.ts:43-61 | A fresh conversation id. The conversation is created at `location` or "Imported from Mobile", linked to the friend and given the audio. The log gains exactly those three calls in that order. |
| MobileImport.Backend.TranscribeBatch | packages/backend/convex/mobileImport.ts:63-88 | Step 6 of the single-file action: a batch call. On a throw it adds a status update to `Ended` and throws `Failed to process audio: ` followed by the thrown message; on success it returns {c, true}. Only conversation `c` changes. |
| MobileImport.Backend.Create | packages/backend/convex/mobileImport.ts:45-47 | A new conversation under an id that was not in the table. |
| MobileImport.Backend.LinkFriend | packages/backend/convex/mobileImport.ts:51-54 | Only the friend field of that conversation changes. |
| MobileImport.Backend.SaveAudio | packages/backend/convex/mobileImport.ts:58-61 | Only the audio field of that conversation changes. |
| MobileImport.Backend.SetStatus | packages/backend/convex/mobileImport.ts:83-86 | Only the status of that conversation changes. |
| MobileImport.Backend.SaveTranscript | packages/backend/convex/mobileImport.ts:193-201 | Only transcript, facts and summary of that conversation change. |
| MobileImport.Backend.ProcessImportedAudioInChunks | packages/backend/convex/mobileImport.ts:106-208 | A failed check writes nothing. Otherwise: the set-up calls (audio = first chunk), then the chunk calls up to the first failure, or all of them and one save. A failure at chunk k throws ChunkFailed(k+1) and leaves the conversation as set up. Success stores exactly `Combine` of the results. |
| MobileImport.Backend.TranscribeChunks | packages/backend/convex/mobileImport.ts:147-170 | The loop sends chunks in index order and stops at the first failing chunk, reporting its index and message. Otherwise it returns the concatenated transcripts, S1 facts, S2 facts and summaries of all chunks. It never touches a conversation. |
| MobileImport.Backend.ImportChunks | packages/backend/convex/mobileImport.ts:147-201 | Steps 6-10: the calls are ChunkedTail. The result is the error `Failed to process chunk <k+1>: <message>` for the first failure k, else {c, true}. Only conversation `c` changes, and only by the one save. |
| MobileImport.SingleOutcome | packages/backend/convex/mobileImport.ts:65-88 | Success with {c, true} iff the transcription returned; otherwise the thrown text is `Failed to process audio: ` followed by the service's message. |
| MobileImport.ChunkedOutcome | packages/backend/convex/mobileImport.ts:147-207 | Success with {c, true} iff no chunk failed; otherwise the thrown text is `Failed to process chunk <k+1>: ` followed by the message of the first failing chunk k. |
| MobileImport.FirstFailure | packages/backend/convex/mobileImport.ts:147-169 | The index of the first failing chunk: every earlier chunk succeeded. None means all succeeded. |
| MobileImport.ChunkCalls | packages/backend/convex/mobileImport.ts:155-157 | One `transcribeChunkOnly` call per storage id, in index order. |
| MobileImport.SingleImportOrder | packages/backend/convex/mobileImport.ts:45-87 | Single file: create (given or default location), link, save audio, transcribe, in that order. A failure adds exactly the `Ended` status update. No transcript save ever appears. |
| MobileImport.ChunkedFailureSavesNothing | packages/backend/convex/mobileImport.ts:147-170 | Chunked with first failure k: after set-up, chunks 0..k are sent in order, with no save and no status change. |
| MobileImport.ChunkedSuccessSavesOnce | packages/backend/convex/mobileImport.ts:147-201 | Chunked with all chunks succeeding: all chunks are sent in order, then exactly one save, last, carrying the combined data. |
| MobileImport.Dedup | packages/backend/convex/mobileImport.ts:173-174 | No repeats, and exactly the elements of the input. |
| MobileImport.DedupKeepsFirstOccurrenceOrder | packages/backend/convex/mobileImport.ts:173-174 | The result lists elements in the order of their first occurrence in the input. |
| MobileImport.DedupAppend | packages/backend/convex/mobileImport.ts:160-174 | Merging two repeat-free lists gives the first list followed by the new elements of the second. |
| MobileImport.DedupOfDistinct | packages/backend/convex/mobileImport.ts:173-174 | A list without repeats is unchanged. |
| MobileImport.CombinedFacts | packages/backend/convex/mobileImport.ts:160-174 | The saved S1 and S2 lists have no repeats, hold exactly the facts of all chunks, and keep first-occurrence order. |
| MobileImport.PartLines | packages/backend/convex/mobileImport.ts:178 | Line k is "Part k+1: " followed by summary k. |
| MobileImport.CombineSummaries | packages/backend/convex/mobileImport.ts:177-179 | More than one summary gives the header followed by the Part lines joined by blank lines. One non-empty summary is used verbatim. No summary, or one empty summary, gives the fallback. |
| MobileImport.CombineNoChunks | packages/backend/convex/mobileImport.ts:177-179 | No chunks: empty transcript and facts, fallback summary. |
| MobileImport.CombineOneChunk | packages/backend/convex/mobileImport.ts:179 | One chunk: its summary, or the fallback when it is empty. |
| MobileImport.CombinedSummaryParts | packages/backend/convex/mobileImport.ts:177-178 | When no summary holds a line break, splitting the text after the header on blank lines gives back exactly the Part lines, numbered from 1, in chunk order. |
| MobileImport.SplitJoinedLines | packages/backend/convex/mobileImport.ts:178 | Lines without line breaks, joined on "\n\n", split back into the same lines. |
| MobileImport.CombineLists | packages/backend/convex/mobileImport.ts:172-190 | Steps 7-9 on the merged lists: de-duplicated facts, the combined summary and the mapped transcript. |
| MobileImport.Combine | packages/backend/convex/mobileImport.ts:172-190 | What the final save writes for the chunk results; specified by CombinedTranscript, CombinedFacts, CombineNoChunks and CombineOneChunk. |
| MobileImport.MapTurn | packages/backend/convex/mobileImport.ts:184-190 | Same text; "S1" maps to the caller and any other label to the friend. |
| MobileImport.MapSpeakers | packages/backend/convex/mobileImport.ts:184-190 | One mapped turn per turn, in order. |
| MobileImport.CombinedTranscript | packages/backend/convex/mobileImport.ts:184-190 | The saved transcript has the length and texts of all chunk turns, with "S1" as the caller and every other label as the friend. |
| MobileImport.MapSpeakersPerChunk | packages/backend/convex/mobileImport.ts:160-190 | Mapping the merged transcript equals mapping each chunk and concatenating in chunk order. |
| Users.Where | packages/backend/convex/users.ts:19-22 | The index query returns exactly the documents with that key. It is empty iff no document has it. |
| Users.Unique | packages/backend/convex/users.ts:22 | `.unique()`: null iff no match, a throw iff more than one match, otherwise the one match. |
| Users.Get | packages/backend/convex/users.ts:4-9 | A document with that id, or none when no document has it. |
| Users.GetCurrentUser | packages/backend/convex/users.ts:11-26 | Null without an identity. A user found has the identity's subject as token. Null with an identity means no document has that token. |
| Users.FindUserByToken | packages/backend/convex/users.ts:28-50 | The same result as getCurrentUser whatever its tokenIdentifier argument. |
| Users.GetUserByInviteCode | packages/backend/convex/users.ts:125-134 | A user found holds that code. Null iff no user holds it. |
| Users.LookupsNeverThrow | packages/backend/convex/users.ts:19-22 | In a table whose tokens and codes are unique, the lookups never throw. |
| Users.CurrentUserIsTheOne | packages/backend/convex/users.ts:13-24 | In such a table, the user holding the subject's token is the one returned. |
| Users.InviteCodeShape | packages/backend/convex/users.ts:55-57 | A code is four ASCII digits that read back as the draw. |
| Users.InviteCodeInjective | packages/backend/convex/users.ts:55-57 | Different draws give different codes. |
| Users.GeneratedCodeIsFree | packages/backend/convex/users.ts:58-64 | A returned code is held by no user. |
| Users.GeneratedCodeIsFirstFree | packages/backend/convex/users.ts:54-64 | A returned code is the first candidate that is free; every earlier one is taken. |
| Users.GenerateFailsOnlyWhenAllTaken | packages/backend/convex/users.ts:53-66 | In a valid table the search fails only by exhaustion, and only when every candidate is taken. |
| Users.GeneratedCodeShape | packages/backend/convex/users.ts:55-64 | A returned code is the code of one of the draws, so it is four digits in "0000".."9999". |
| Users.PatchProfile | packages/backend/convex/users.ts:95-99 | Only the document with that id changes, and only its name, email and image. |
| Users.PatchPhone | packages/backend/convex/users.ts:148-150 | Only the document with that id changes, and only its phone number. |
| Users.PatchProfileKeepsInvariant | packages/backend/convex/users.ts:95-99 | Patching the profile keeps ids, tokens and codes unique. |
| Users.PatchPhoneKeepsInvariant | packages/backend/convex/users.ts:148-150 | Patching the phone keeps ids, tokens and codes unique. |
| Users.InsertKeepsInvariant | packages/backend/convex/users.ts:109-116 | Inserting with a fresh id, an unused token and an unused code keeps them unique. |
| Users.GetFindsOnlyRow | packages/backend/convex/users.ts:119 | Reading back the inserted id finds the inserted document. |
| Users.UserTable.GenerateUniqueInviteCode | packages/backend/convex/users.ts:52-67 | The loop returns the first free candidate of the 20 draws, or throws after 20 taken codes. It equals GenerateOutcome. |
| Users.UserTable.UpsertUser | packages/backend/convex/users.ts:69-123 | No identity: null and nothing written. Known token: the existing record is returned, patched only when name, email or image differs, never inserted. New token: exactly one document is appended with subject, invitedByCode and the generated code. A throw writes nothing. |
| Users.UserTable.RefreshProfile | packages/backend/convex/users.ts:87-101 | Patch name, email and image only when one differs. |
| Users.UserTable.InsertNewUser | packages/backend/convex/users.ts:104-121 | Insert one document with the generated code and return it, or throw and write nothing. |
| Users.IsValidPhoneNumber | packages/backend/convex/users.ts:143 | `/^\+1\d{10}$/`: twelve characters, `+1` then ten ASCII digits. UpdatePhoneNumber states what follows from it. |
| Users.UserTable.UpdatePhoneNumber | packages/backend/convex/users.ts:136-154 | Anything but "+1" and ten digits throws and changes nothing. Otherwise only that user's phone number is set. |
| InviteGate.Entries | apps/web/app/routes/sign-in.tsx:9 | The header split on `;`, each piece trimmed; specified through SingleEntry, EntryValue and CookieValue. |
| InviteGate.FindWithPrefix | apps/web/app/routes/sign-in.tsx:10 | The first entry with the prefix; no earlier entry has it. |
| InviteGate.GetCookieFromRequest | apps/web/app/routes/sign-in.tsx:6-12 | Null for a missing or empty header. Otherwise a value iff some trimmed entry starts with exactly `name=`. |
| InviteGate.EntryValue | apps/web/app/routes/sign-in.tsx:11 | The second `=`-piece of `name=rest` is `rest` up to its first `=`, and holds no `=`. |
| InviteGate.CookieValue | apps/web/app/routes/sign-in.tsx:9-11 | The value read comes from the first matching entry: its text after `name=` up to the next `=`. A value holding `=` comes back cut short. |
| InviteGate.SingleEntry | apps/web/app/routes/sign-in.tsx:9 | A header without `;` is one trimmed entry. |
| InviteGate.CookieRoundTrip | apps/web/app/routes/sign-in.tsx:6-12 | A header `name=value` (no `;` or `=` in either, untouched by trim) gives back `value`. |
| InviteGate.Clean | apps/web/app/routes/sign-in.tsx:29 | `s.trim().toLowerCase()`; specified through CleanShape. |
| InviteGate.Normalize | apps/web/app/routes/sign-in.tsx:29-30 | Map by Clean, then drop empty strings: no longer than its input, and no entry is empty. NormalizeComplete and NormalizeSource state its exact contents. |
| InviteGate.Allowlist | apps/web/app/routes/sign-in.tsx:27-30 | The allow-list read from an unset or set `ALLOWLIST_EMAILS`: no entry is empty. AllowlistEntries and AllowlistEmpty state the rest. |
| InviteGate.NormalizeComplete | apps/web/app/routes/sign-in.tsx:27-30 | Every piece that is non-empty after trim and lower-case is in the allow-list. |
| InviteGate.NormalizeSource | apps/web/app/routes/sign-in.tsx:27-30 | Every allow-list entry is the trimmed, lower-cased form of some piece, and is non-empty. |
| InviteGate.CleanShape | apps/web/app/routes/sign-in.tsx:29 | A non-empty cleaned piece has no whitespace at either end and no upper-case ASCII letter. |
| InviteGate.AllowlistEntries | apps/web/app/routes/sign-in.tsx:27-30 | Allow-list entries are non-empty, trimmed and free of upper-case ASCII. |
| InviteGate.AllowlistEmpty | apps/web/app/routes/sign-in.tsx:27-34 | The allow-list is empty iff every comma-separated piece is blank. |
| InviteGate.Loader | apps/web/app/routes/sign-in.tsx:14-40 | Signed in goes to /dashboard regardless. The waitlist redirect happens iff signed out, in production, with no truthy invite cookie and an empty allow-list. The loader returns null iff signed out and not in that case, so outside production a signed-out visitor always gets null. |
| InviteGate.InvitedVisitorPasses | apps/web/app/routes/sign-in.tsx:25-39 | A signed-out production visitor whose header yields a truthy `invite_code` value reaches the page, whatever else the header holds and whatever the allow-list. |
| InviteGate.InviteCookieHeaderPasses | apps/web/app/routes/sign-in.tsx:6-39 | In particular, the exact header `invite_code=<code>` (code non-empty, free of `;` and `=`, not ending in whitespace) lets a signed-out production visitor reach the page. |
| InviteGate.AllowlistOpensGate | apps/web/app/routes/sign-in.tsx:27-39 | Any non-blank allow-list piece keeps every visitor off the waitlist redirect, and a signed-out visitor gets null. |
| UserSync.GetCookie | apps/web/app/components/UserSync.tsx:6-12 | Null without a document. A value is returned only when the split gave exactly two pieces, and it is non-empty and free of `;`. |
| UserSync.GetCookieSingleMatch | apps/web/app/components/UserSync.tsx:8-10 | When `; name=` occurs in `"; " + cookie` first at p and never after it, the result is the text after that occurrence up to the first `;`, or null when that text is empty. |
| UserSync.GetCookieFound | apps/web/app/components/UserSync.tsx:8-10 | Conversely, a value read comes from such an only occurrence p: it is the text after p up to the first `;`. |
| UserSync.AbsentNameGivesNull | apps/web/app/components/UserSync.tsx:8-11 | A cookie string without `; name=` gives null. |
| UserSync.RepeatedNameGivesNull | apps/web/app/components/UserSync.tsx:8-11 | `; name=` occurring twice gives null. |
| UserSync.GetCookieRoundTrip | apps/web/app/components/UserSync.tsx:6-12 | `name=value` with a non-empty value free of `;` gives back `value`. |
| UserSync.Syncer.Effect | apps/web/app/components/UserSync.tsx:25-44 | `upsertUser` is called, with the invite cookie, iff signed in and not yet synced. Signing out clears the flag. |
| UserSync.Syncer.Settle | apps/web/app/components/UserSync.tsx:29-37 | The flag is set on success and cleared on failure. |
| RootLayout.RouteGroup | apps/expo/app/_layout.tsx:22-36 | The group a redirect target lies in is the first segment of its path. |
| RootLayout.Redirect | apps/expo/app/_layout.tsx:19-38 | No redirect before loading. Afterwards a redirect happens iff the user is outside the group matching the sign-in state, and it goes to /(tabs) when signed in, /(auth)/sign-in otherwise. |
| RootLayout.RedirectSettles | apps/expo/app/_layout.tsx:19-38 | In the group a redirect leads to, no further redirect happens. |
| Integrations.ShowAuthButtons | apps/web/app/components/homepage/integrations.tsx:15 | True iff there is loader data, the user is signed out and has an invite. |
| Integrations.PrimaryButtonLink | apps/web/app/components/homepage/integrations.tsx:17-23 | Subscriber gives /dashboard, other signed-in users /pricing. /sign-up iff the auth buttons show. /waitlist iff there is no data or the user is signed out without an invite. |
| Integrations.PrimaryButtonText | apps/web/app/components/homepage/integrations.tsx:25-31 | The same table for the labels. |
| Integrations.TextMatchesLink | apps/web/app/components/homepage/integrations.tsx:17-31 | The two chains always agree: the text is the label of the link, and the link is one of four destinations. |
| ImportAudio.HasAudioExtension | apps/expo/components/conversations/import-audio.tsx:61 | The name ends with `.` and one of mp3, wav, m4a, aac, ogg, flac, in any ASCII letter case. |
| ImportAudio.IsAudioFile | apps/expo/components/conversations/import-audio.tsx:59-62 | The filter's test: an `audio/` MIME type or a file name with an audio extension; AudioFiles states the filter. |
| ImportAudio.AudioFiles | apps/expo/components/conversations/import-audio.tsx:59-62 | Exactly the shared files with an `audio/` MIME type or an audio extension in any case. |
| ImportAudio.FirstAudioFile | apps/expo/components/conversations/import-audio.tsx:71-73 | The file taken is the first shared file that passes the filter. |
| ImportAudio.ImportTraceProgress | apps/expo/components/conversations/import-audio.tsx:107-166 | Progress never decreases and stays at most 100. The import ends complete at 100 iff the upload and the backend call both succeed with a friend, and in the error stage otherwise. |
| ImportAudio.ImportScreen.ExtractAudioFile | apps/expo/components/conversations/import-audio.tsx:56-73 | No audio file: the screen is left and nothing is selected. Otherwise the first audio file is loaded. |
| ImportAudio.ImportScreen.HandleFriendSelect | apps/expo/components/conversations/import-audio.tsx:89-92 | The friend is set and solo is cleared; friend and solo are never both set. |
| ImportAudio.ImportScreen.HandleSoloSelect | apps/expo/components/conversations/import-audio.tsx:94-97 | Solo is set and the friend is cleared. |
| ImportAudio.ImportScreen.HandleStartImport | apps/expo/components/conversations/import-audio.tsx:99-166 | Refused, with nothing changed, unless a friend or solo is chosen and a file is loaded. Otherwise the screen passes through ImportTrace, and the backend is called once, after a successful upload, with the selected friend or none. |
| ImportAudio.ImportScreen.TryAgain | apps/expo/components/conversations/import-audio.tsx:173-178 | Back to selecting a friend with progress 0 and solo off; the friend and file stay. |
| WhisperTranscription.MimeTypeOf | packages/backend/convex/whisperTranscription.ts:39 | The blob's type, or "audio/mpeg" when it is empty. |
| WhisperTranscription.ExtensionOf | packages/backend/convex/whisperTranscription.ts:42-55 | The table's extension for a listed type, "m4a" for any other; always one of the six extensions. |
| WhisperTranscription.FileName | packages/backend/convex/whisperTranscription.ts:56 | "recording." followed by the extension. |
| WhisperTranscription.PrepareUpload | packages/backend/convex/whisperTranscription.ts:28-59 | A missing blob iff "Audio file not found". Otherwise the upload has the defaulted type and is named "recording." plus that type's extension. |
| WhisperTranscription.TranscribeSoloAudio | packages/backend/convex/whisperTranscription.ts:24-75 | A missing blob gives the error; otherwise Whisper's text. |
| WhisperTranscription.FileNames | packages/backend/convex/whisperTranscription.ts:39-56 | The name is one of six `recording.*` names. An untyped blob is sent as recording.mp3, an unlisted type as recording.m4a. |

## Left out

- The Convex runtime. `ctx.db`, `ctx.auth`, `ctx.runQuery`, `ctx.runMutation` and `ctx.runAction` are fields and methods of the `Backend` and `UserTable` classes. The `conversations.*` mutations, whose bodies are not part of this model, write the fields their names say and never fail.
- `speechmaticsBatch.batchTranscribe` and `transcribeChunkOnly` are oracle arguments: a result or a thrown message per call. Their internals, including what the batch transcription writes to the conversation, are not part of this model.
- The OpenAI Whisper request, `Buffer`/`File` construction and `ctx.storage.get` are foreign I/O. The stored blob and Whisper's text are arguments.
- The import screen's file read, `generateUploadUrl` and upload `fetch` are network I/O. They become one `uploadOk` flag; `processImportedAudio` becomes an `importOk` flag.
- ImportAudio.ImportScreen.HandleStartImport: a solo import sends `friendId: undefined`, which the backend's validator rejects since it requires a user id. The model ends such an import in the error stage at 30% and does not model the validator's message.
- React rendering, `Alert`, `router.*`, the share-intent context, status messages and all console output are UI. Leaving the screen is a `left` flag, and an effect's `router.replace` is the returned route.
- The catch branch of `extractAudioFile` is not modelled: nothing in the filter throws.
- UserSync.Syncer.Effect: the `upsertUser` promise settles in a separate step, `Settle`. Interleavings of several in-flight calls and React's scheduling of effects are not modelled.
- `toFixed(2)` in the size message is floating point and is not modelled. `encodeURIComponent` in redirect URLs is a library call and is not modelled.
- InviteGate.Clean lower-cases ASCII letters only. The gate reads only whether the allow-list is empty, and no case mapping changes that. The audio-extension regex without the `u` flag folds no other character onto an ASCII letter, so ASCII lower-casing is exact there.
- Strings are sequences of Unicode scalar values, not UTF-16 code units. Every separator and prefix involved is ASCII.
- The `tokenIdentifier` that `processImportedAudio` computes at line 31 is never used, so it is not modelled.
- MobileImport.Backend.ProcessImportedAudioInChunks with an empty `storageIds`: `storageIds[0]` is `undefined`. The model records a save-audio call with no storage id, which succeeds; what the real mutation's validator does with it is not part of this model.
- WhisperTranscription.ExtensionOf: keys inherited from `Object.prototype` (for example a blob type of `constructor`) are treated as absent from `extensionMap`. In JavaScript they would yield a function.
- `Math.random()` is replaced by a sequence of 20 draws in 0..9999 passed in.
- The `.unique()` throw on duplicate index keys is an `Err(NotUnique)`. Under `UserTable.Valid` it never happens.
- `ctx.db.patch` on a missing id throws in Convex; `updatePhoneNumber` models that throw as `Err(MissingDocument)`.
- The chunk loop appends its calls to the log once the loop ends, not call by call. The sequence of calls is the same.
