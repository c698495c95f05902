# secret-share: a verified model

secret-share keeps ciphertexts that browsers encrypt. A secret is shown once and burned, or shown a given
number of times if it was created with `views=N`; it may be private, and then only a signed-in user sees it.
This project models that life, the formats the browser and the cookies use, and the user records behind the
sign-in, and proves what holds of them in every run, on every input and in every interleaving.

Run `dafny verify dfyconfig.toml` to check all of it.

## How it is built

**The life of a secret.** A secret is spread over three buckets (`SecretStore`, `ViewsStore`,
`VisibilityStore`; `FileStore` for files). The stores are classes whose methods are the transactions; each is
proved against a function on the rows. `Protocol` is a state machine whose steps are these transactions: any
number of creates, metas, reveals and file requests, the four sweepers, the clock, crashes, failing commits and
rows that stop decoding interleave in it. A one-time reveal is up to seven of its steps: gate, session, consume,
peek, expiry check, burn or reap, and the removal of the mark. The state carries a *book* that notes what happened to each
issued id (what was handed out to which request, how often "not found" was answered, whether expiry or an
undecodable row was observed). No step reads it; it is there so that the guarantees can be said.
`Invariant` and `Preservation` show that every step keeps a per-id invariant, `Effects` says exactly what each step
does to one id, `Guarantees` draws the conclusions about runs, `Lateness` says what can still happen past an expiry,
`Sessions` who is served without a session, `Previews` what meta answers, `Continuations` what can still be had after a
failure, and `Witnesses` shows runs that end where no guarantee reaches. `Server` and `FileServer` hold the handlers
and middlewares as code over the stores; `Uninterrupted` says how they do to the buckets exactly what the protocol's steps do, `Sweepers` does the same
for the loops that list, check and delete.

**Formats.** `Base64` (sections 4 and 5 of RFC 4648), `Framing` (big-endian lengths, packed files, the two
blobs), `Encryption` (files and texts through an abstract cipher and back), `Text` (split and join, decimal
numbers, hexadecimal) and `Cookies` (the OIDC state cookie and the session cookie).

**Users.** `Users` is the store, `Recovery` the one-time codes, `Accounts` every request, command and sign-in
that writes a user record, as a plan made from what was read. `TwoFactor` runs such plans interleaved in any
order, `Lockout` runs them one after the other, `SignIns` follows a recovery code through such a history, `Overlap` says
which steps break the promises of these two when requests interleave, `UserWitnesses` shows reachable buckets and
interleavings on which a guard does not hold, `Deeds` says of every request when it succeeds and which fields of which
record it changes, without naming a plan, `Console` holds the handlers as code over the store, each proved to carry
out its plan, and `Oidc` maps the claims of an identity provider to admission and role. `Settings` is
configuration validation apart from TLS and sign-in, whose verdicts it takes.

Bolt transactions are atomic: they take effect as a whole or not at all, and which of them fail is left open
everywhere. bcrypt, HMAC, AES-GCM, PBKDF2, TOTP, JSON and `time.ParseDuration` are parameters about which no
more is assumed than the lemma says.

## Where code and comments disagree

- The comments on both `DeleteExpired` say "at or before now"; the code removes what is strictly past its
  expiry (`internal/models/secret/secret.go:34-36`). The model follows the code.
- The comment on meta says that missing, burned and expired secrets read identically. Burned ones do
  (`Guarantees.BurntLooksMissing`). Past the expiry one reads like an id never issued exactly if no budget row of it
  decodes (`Lateness.MetaPastExpiry`, in every interleaving, at the step that reads the budget), because the views left
  are added to the answer all the same (`internal/server/multiview.go:98-109`).
  `Witnesses.ExpiredReadsOtherwise` is a run to a state where it does not.
- `localSelfUser` (`internal/domain/auth/2fa.go:18-35`) means to return an error when it refuses; the
  response writer returns none when it has written. Either way the request ends without touching a record,
  and that is what the model does.
- "A private secret or file needs a session" does not hold past a sweep. The visibility sweeper asks the secrets only
  (`internal/cli/serve.go:209`), so it takes the marks of private files as orphans, and those of private secrets that are
  purged but have views left. `Sessions.WhoIsUnasked` says in every run who is served without a session, by the moment at
  which his gate ran; `Sessions.FileMarkMissing` and `Sessions.SecretMarkMissing` when a recorded mark is missing; and
  `Sessions.MarkedFileUnasked` and `Sessions.PrivateViewUnasked` put the two together. `Witnesses.PrivateFileForAnyone`
  and `Witnesses.PrivateViewForAnyone` are a run for each.
- "No view after expiry" does not hold. What is handed out past the expiry is exactly a view from a budget row that
  holds more than the last one, or a burn whose check ran in time (`Lateness.LateHandout`); a reveal whose consume comes
  past the expiry is answered exactly in the first case, the secret being there or purged (`Lateness.LateReveal`).
  `Witnesses.ViewAfterPurge` and `Witnesses.BurnAfterExpiry` are a run for each.
- The last enabled admin is guarded in the console, one request after the other (`Lockout.NeverLockedOut`). For a
  sign-on and the three commands that change or remove a user there are exact conditions (`Lockout.SignOnKeepsAdmin`,
  `Lockout.SetRoleKeepsAdmin`, `Lockout.CliDeleteKeepsAdmin`, `Lockout.CliCreateKeepsAdmin`), and reachable buckets on
  which each locks everybody out. When requests overlap, an enabled admin remains exactly as long as every write that
  lands makes one or meets a bucket with another one (`Overlap.AdminsThrough`); a guarded plan does that on the bucket it
  was made from (`Overlap.FreshSpares`), but perhaps not on the one it meets. `UserWitnesses.TwoDeletionsLockOut` fails
  with two guarded requests, `UserWitnesses.OldRecordLocksOut` with one and a passkey that is being added.
- A recovery code is accepted even if its use cannot be saved (`internal/domain/auth/2fa.go:188-193`).
  `SignIns.CodeGoesIfWritten` says when it goes, `SignIns.CodeWorksOnce` that it then stays gone, one request after the
  other. When requests overlap it stays gone exactly until a record that still has it is written back
  (`Overlap.SpentThrough`, `Overlap.CodeComesBack`), by whatever request planned with one. `UserWitnesses.OneCodeTwice` has
  two sign-ins pass with one code, `UserWitnesses.UsedCodeComesBack` has a used code work again, with one sign-in at a time.

## Model

| member | source | states |
|---|---|---|
| Guarantees.NeverTooMany | internal/domain/secretviews/store.go:59-102 | In every run, with failures, crashes, expiry, sweeps and reveals that race the create: what was handed out and what is left never exceed the views asked for, nor one if the budget was lost |
| Guarantees.SuccessCostsOne | internal/server/multiview.go:49-87 | In every step, also while the create has not answered and reveals race it, what is left and may yet be recorded falls by at least what is handed out, and never rises; once the create has answered a success lowers what is left by exactly one |
| Guarantees.RefinesCounter | internal/server/multiview.go:69-87 | The transactions of all reveals of an id refine one counter: while its lifetime runs every step serves one, refuses at zero or changes nothing; a view is forfeited only past the expiry or when the budget row itself stops decoding |
| Guarantees.StartsFull | internal/server/multiview.go:49-66 | Until the first success, and with nothing forfeited, the counter stands at the recorded budget, or at one |
| Guarantees.SuccessesAreMin | internal/server/multiview.go:69-87 | With nothing forfeited, k answered reveals are min(k, N) successes |
| Guarantees.CountsDown | internal/server/multiview.go:75-85 | In commit order the responses carry N-1, N-2, ... remaining views, and a burn comes last |
| Guarantees.BurnComesLast | internal/server/multiview.go:79-85 | With nothing forfeited the burn has happened exactly when all granted views were handed out |
| Guarantees.NoBudgetReturns | internal/server/multiview.go:79-85 | Once a reveal has fallen through towards the burn there is no budget for its id, then or at any later time |
| Guarantees.OneViewPerReveal | internal/server/routes.go:88-91 | What was handed out, and with nothing forfeited what is missing from the budget, never exceeds the number of reveal requests that came |
| Guarantees.CrashLeavesOne | internal/domain/secrets/handler.go:95-116 | If the process dies, or the peek or the burn fails, between the last counted view and the burn, that request is gone, one view is left, and no continuation hands out more than one |
| Continuations.LastViewStillComes | internal/domain/secrets/handler.go:95-116 | And the run can go on so that exactly that one view is handed out, after which nothing is left |
| Guarantees.CrashLosesNothing | internal/server/multiview.go:29-67 | A crash ends all requests and sweeps and changes no bucket, no view left and no terms of a published id |
| Guarantees.AlwaysTheSameCiphertext | internal/server/multiview.go:61-84 | Every copy at rest and every delivery is the ciphertext given to create |
| Guarantees.NeverLostEarly | internal/domain/secrets/handler.go:95-116 | A secret that is gone was burned or is past its expiry |
| Guarantees.MarkOutlivesSecret | internal/server/middleware.go:97-131 | While a secret recorded as private is stored, so is its mark, whatever burns and sweeps run |
| Guarantees.PrivateNeedsSession | internal/server/middleware.go:63-95 | Every burn of a secret recorded as private, and every view whose gate ran while it was stored, came from a verified session |
| Guarantees.MetaTellsTheTruth | internal/server/multiview.go:89-117 | The views that meta adds are those not handed out yet; with nothing forfeited none are told only when at most the burn is left, and none ever once all are handed out |
| Guarantees.BurntLooksMissing | internal/domain/secrets/handler.go:73-90 | After the burn neither a secret nor a budget tells the id from one that never was |
| Guarantees.MetaIsHarmless | internal/domain/secrets/handler.go:73-90 | No step of a meta request changes anything kept, for an id not past its expiry |
| Guarantees.SweepersSpareTheLiving | internal/cli/serve.go:191-261 | No step of either sweeper, however stale its list, touches what is kept for a stored secret |
| Guarantees.SweepCloses | internal/cli/serve.go:227-261 | After a purge past its expiry and one complete walk of the views sweeper without errors, secret and budget are gone and nothing is ever handed out again |
| Guarantees.FileShownOnce | internal/domain/files/store.go:74-102 | In every run a file is handed out at most once, and never after its expiry |
| Guarantees.GoneFile | internal/domain/files/store.go:74-102 | A file that is gone stays gone |
| Guarantees.RunFollows | internal/domain/secrets/store.go:31-54 | Between any two moments of a run a published id keeps its terms, its log only grows, absence is final, and handed out plus left never grows |
| Guarantees.RunInv | internal/server/routes.go:75-102 | The per-id invariant and the local assertions of all requests and sweepers hold at every moment of every run |
| Effects.StepLogs | internal/server/multiview.go:73-87 | In any step of anybody, what is handed out of an issued id is exactly a view served from its budget or its burned secret |
| Effects.StepCounts | internal/server/multiview.go:73-87 | While its lifetime runs, every step takes from what is left exactly what it hands out, and answers "not found" only if nothing is left |
| Lateness.LateHandout | internal/domain/secrets/handler.go:98-107 | Past the expiry a step hands something out exactly if it is a consume that finds more than the last view, or a burn of a secret whose check ran at a time not past the expiry |
| Lateness.LateReveal | internal/server/multiview.go:73-87 | A reveal whose consume comes past the expiry is answered with a view, then or ever, exactly if at that step a budget row decodes that holds more than the last one, secret present or purged alike |
| Lateness.CheckedInTime | internal/domain/secrets/handler.go:98-107 | Whoever burns a secret that is there has passed the check in a step before |
| Lateness.MetaPastExpiry | internal/server/multiview.go:93-116 | In every interleaving a meta request that reads past the expiry answers as for an id never issued exactly if its read of the budget fails or no row decodes |
| Lateness.NeverIssued | internal/domain/secrets/handler.go:73-90 | What meta answers for an id that was never issued |
| Previews.PreviewTells | internal/server/multiview.go:89-117 | In every interleaving a meta request tells of a secret, and of its size, exactly if its check found the lifetime not over, and tells the views not handed out yet, as of its last step, exactly if it can read the budget there and a row decodes |
| Sessions.WhoIsUnasked | internal/server/middleware.go:71-95 | In every interleaving a request past the gate serves somebody without a session exactly if its gate ran, before, while auth was off, or the gate open and the mark of the id not there |
| Sessions.StepMarks | internal/server/middleware.go:103-178 | After any step of anybody a mark is there exactly if the step sets it, or it was there and neither a burn's clean-up nor the sweeper takes it |
| Sessions.FileMarkMissing | internal/cli/serve.go:193-225 | In every interleaving the recorded mark of a file that is still stored is missing exactly if the visibility sweeper took it since |
| Sessions.MarkedFileUnasked | internal/server/middleware.go:71-164 | In every interleaving a file whose mark was recorded is handed out to somebody without a session exactly if not all reveals are gated and the gate of his request ran before the mark was recorded or after the sweeper took it |
| Sessions.SecretMarkMissing | internal/server/middleware.go:103-178 | In every interleaving the recorded mark of a secret is missing exactly if it was taken since, after a burn or by the sweeper |
| Sessions.PrivateViewUnasked | internal/server/middleware.go:71-131 | In every interleaving a view or the burn of a secret whose mark was recorded goes to somebody without a session exactly if not all reveals are gated and the gate of his reveal found the mark taken, the secret being gone by then |
| Witnesses.ViewAfterPurge | internal/server/multiview.go:73-87 | A run in which an expired and purged secret is still shown from its budget |
| Witnesses.BurnAfterExpiry | internal/domain/secrets/handler.go:98-107 | A run in which a secret without a budget is handed out after its expiry |
| Witnesses.ExpiredReadsOtherwise | internal/server/multiview.go:93-116 | A run to a state in which an expired id does not read like one never issued |
| Witnesses.PrivateFileForAnyone | internal/cli/serve.go:202-221 | A run in which a file marked private is handed out to a caller without a session |
| Witnesses.PrivateViewForAnyone | internal/cli/serve.go:202-221 | A run in which a view of a secret recorded as private goes to a caller without a session, after the purge and one sweep |
| Preservation.StepKeeps | internal/server/routes.go:75-102 | Every enabled step keeps the invariant and moves each id's history forward only |
| Preservation.ConsumeKeeps | internal/server/multiview.go:69-87 | Consuming keeps the invariant: it serves and counts one view, or passes the request on with no budget left |
| Preservation.BurnKeeps | internal/domain/secrets/store.go:81-109 | Reading and deleting in one transaction keeps the invariant: one delivery for one view, or a miss |
| Preservation.PutKeeps | internal/server/multiview.go:49-66 | Recording the budget after the create, or losing it, keeps the invariant |
| Preservation.MarkKeeps | internal/server/middleware.go:97-131 | Recording the mark after the create, or losing it, keeps the invariant |
| Preservation.SweepViewsKeeps | internal/cli/serve.go:227-261 | List, check and delete of the views sweeper keep the invariant step by step |
| Preservation.SweepMarksKeeps | internal/cli/serve.go:191-225 | So do those of the visibility sweeper |
| Preservation.SweepSecretsKeeps | internal/domain/secrets/store.go:125-154 | So does the purge of expired secrets |
| Preservation.CrashKeeps | internal/server/multiview.go:49-66 | A crash keeps the invariant: what was pending is lost, what was committed stands |
| Invariant.Stable | internal/server/routes.go:75-102 | What an in-flight request relies on survives every step of everybody else |
| Invariant.Lift | internal/server/routes.go:75-102 | A step that is right for each id, and for the request that moved, is right for the whole state |
| SecretStore.Store.Create | internal/domain/secrets/store.go:31-54 | Stores under a new id only; closed store, empty id, collision and failed commit change nothing |
| SecretStore.Store.GetMeta | internal/domain/secrets/store.go:56-79 | Reads without burning: the record, nothing, or an error for an undecodable row |
| SecretStore.Store.GetAndBurn | internal/domain/secrets/store.go:81-109 | Hands the record out and deletes it in one transaction; an undecodable row stays and is an error |
| SecretStore.Store.Delete | internal/domain/secrets/store.go:111-123 | Removes one id, present or not, and nothing else |
| SecretStore.Store.DeleteExpired | internal/domain/secrets/store.go:125-154 | The cursor loop leaves exactly the rows not strictly past their expiry, undecodable ones included, and returns how many went |
| ViewsStore.Store.Put | internal/domain/secretviews/store.go:41-57 | Writes a budget of at least one view; otherwise changes nothing |
| ViewsStore.Store.Consume | internal/domain/secretviews/store.go:59-102 | Takes one view in one transaction: the stored copy while views remain, the record's removal on the last, the removal of a row that does not decode |
| ViewsStore.Store.Remaining | internal/domain/secretviews/store.go:104-131 | Tells the budget without taking from it |
| ViewsStore.Store.Delete | internal/domain/secretviews/store.go:133-145 | Drops one budget and nothing else |
| ViewsStore.Store.List | internal/domain/secretviews/store.go:147-164 | Lists every key once |
| VisibilityStore.Store.SetPrivate | internal/domain/secretvis/store.go:35-47 | Marks one id; an empty id or a failed commit marks nothing |
| VisibilityStore.Store.IsPrivate | internal/domain/secretvis/store.go:49-64 | Private exactly if the mark is there |
| VisibilityStore.Store.Delete | internal/domain/secretvis/store.go:66-78 | Removes one mark and nothing else |
| VisibilityStore.Store.List | internal/domain/secretvis/store.go:80-97 | Lists every mark once |
| FileStore.Store.Create | internal/domain/files/store.go:32-45 | Stores under the id, over whatever lay there |
| FileStore.Store.GetMeta | internal/domain/files/store.go:47-72 | An expired record reads as absent |
| FileStore.Store.GetAndBurn | internal/domain/files/store.go:74-102 | Whatever lies under the id is gone afterwards, and only a record that decodes and is not expired is handed out |
| FileStore.Store.Delete | internal/domain/files/store.go:104-113 | Removes one id and nothing else |
| FileStore.Store.DeleteExpired | internal/domain/files/store.go:115-146 | The two phases together leave exactly the decodable rows not strictly past their expiry, and return how many went |
| FileStore.SweepsAgree | internal/domain/files/store.go:115-146 | On decodable rows with the same lifetimes both purges leave the same ids and remove as many |
| FileStore.SweepsPart | internal/domain/files/store.go:124-129 | A row that does not decode stays among the secrets and goes among the files |
| Server.RevealGate | internal/server/middleware.go:63-95 | Refuses or passes as the protocol's gate does, changes nothing; unauthorized exactly for a session asked for and denied, an error exactly where the mark or the session cannot be read |
| Server.Api.MultiViewReveal | internal/server/multiview.go:69-87 | Does the protocol's consume step; answers a view that is not the last from the budget and otherwise passes on |
| Server.Api.DropExpired | internal/domain/secrets/handler.go:98-104 | Peeks, answers for an expired secret and drops it, and leaves a live one for the burn |
| Server.Api.Burn | internal/domain/secrets/handler.go:106-115 | Does the protocol's burn step and answers what it found |
| Server.Api.RevealHandler | internal/domain/secrets/handler.go:92-116 | The whole handler does the protocol's steps from peek to burn, and what it answers follows from the one row |
| Server.Api.DropVisibilityOnBurn | internal/server/middleware.go:163-176 | Drops the mark after a burn and only then, as the protocol's last step does |
| Server.Api.Reveal | internal/server/routes.go:91 | Leaves the buckets as the protocol's request run to its end, shows in the book what it answered, is unauthorized exactly if a session is asked for and denied, and undisturbed answers from the budget row while more than the last view is left, or else from the secret row up to the last instant of its lifetime |
| Server.Api.MetaHandler | internal/domain/secrets/handler.go:73-90 | Does the protocol's meta steps; missing, burned and expired answer the same |
| Server.Api.Meta | internal/server/routes.go:90 | Leaves the buckets as the protocol's request run to its end, and undisturbed answers existence and size of a secret that lives, and the views left wherever a budget row decodes |
| Server.Api.Create | internal/server/routes.go:89 | Refuses exactly what is out of range, as too large or as bad, before anything is stored; what it accepts leaves the buckets as a create of the protocol run to its end, and the stored secret has the ciphertext and the lifetime asked for, or the configured one where none was |
| Server.Api.Write | internal/server/routes.go:84-89 | Secret, budget and mark, in this order; what lies in the buckets afterwards, by which of the three commits |
| Server.Api.RecordTerms | internal/server/routes.go:84-89 | Budget first, mark second, then the answer: what lies in both buckets by which of the two commits |
| Server.Api.CreateHandler | internal/domain/secrets/handler.go:50-70 | Stores the record with its expiry under the new id, or fails and stores nothing |
| Server.Api.CaptureViews | internal/server/multiview.go:49-66 | Records the budget exactly for several views and a commit, and goes on either way |
| Server.Api.CaptureVisibility | internal/server/middleware.go:97-131 | Records the mark exactly for a private secret with auth on and a commit, and goes on either way |
| FileServer.FileApi.CreateFile | internal/server/routes.go:97-99 | Answers not found with files off; refuses exactly empty and oversized files and bad lifetimes, each in its way; otherwise leaves the buckets as the protocol's create run to its end, the stored file with the content and the lifetime asked for, or the configured one where none was |
| FileServer.FileApi.RevealFile | internal/server/routes.go:101 | Leaves the buckets as the protocol's request run to its end; is unauthorized exactly if a session is asked for and denied; past the gate streams a file that decodes and lives, and says gone for any other; removes what it streams |
| Server.ResolveTtl | internal/domain/secrets/handler.go:118-133 | A blank text gives the configured lifetime; any other is accepted exactly if it is a positive duration within the maximum, and gives that duration |
| Settings.Validate | internal/core/env/config.go:353-406 | Accepts exactly what TLS and sign-in validation accept and whose durations, ceilings and metrics address are sound; then numbers are in range and no accessor falls back for a duration that was given |
| Settings.ValidateSecrets | internal/core/env/config.go:367-389 | Accepts exactly the limits on secrets that are positive and within the ceiling, and normalizes size and views |
| Sweepers.SweepViews | internal/cli/serve.go:238-257 | One tick deletes what the protocol's sweep steps delete, and counts it |
| Sweepers.SweepMarks | internal/cli/serve.go:202-221 | One tick deletes the marks that the protocol's sweep steps delete, and counts them |
| Sweepers.DroppedIs | internal/cli/serve.go:243-253 | A walk deletes exactly the listed ids without a secret whose read and deletion commit |
| Sweepers.SweepKeeps | internal/cli/serve.go:207-218 | A walk without errors keeps a mark exactly if a secret has its id, so none of a file |
| Base64.BytesToB64 | frontend/src/lib/crypto.js:12-16 | The loop and `btoa` compute the standard encoding of the bytes |
| Base64.B64ToBytes | frontend/src/lib/crypto.js:18-23 | Fills a new buffer with what `atob` decodes, and fails exactly if it fails |
| Base64.PadAndDecode | frontend/src/lib/crypto.js:32-36 | The padding loop ends at the next multiple of four, and decoding follows |
| Base64.B64UrlRoundTrip | frontend/src/lib/crypto.js:25-36 | Decoding the URL form gives back any bytes at all |
| Base64.B64RoundTrip | frontend/src/lib/crypto.js:12-23 | So does the padded form |
| Base64.SextetsAre | frontend/src/lib/crypto.js:11-23 | Three bytes and their four sextets are the same number of 24 bits |
| Base64.LetterIs | frontend/src/lib/crypto.js:11-23 | The letters are those of the standard alphabet |
| Base64.UrlLetterIs | frontend/src/lib/crypto.js:25-36 | The letters of the URL form are those of the URL-safe alphabet |
| Base64.B64UrlIsUrlSafe | frontend/src/lib/crypto.js:25-30 | The URL form uses letters, digits, dash and underscore only |
| Base64.B64UrlIs | frontend/src/lib/crypto.js:25-30 | Rewriting and stripping leave the letters of the URL alphabet, four for three bytes, rounded up, and no padding |
| Base64.B64UrlToBytesAccepts | frontend/src/lib/crypto.js:32-36 | Any string decodes exactly if, mapped, padded and with white space taken out, it is letters with none, one or two characters of padding where they fit |
| Base64.AtobAccepts | frontend/src/lib/crypto.js:18-23 | `atob` takes exactly letters, white space aside, with none, one or two characters of padding where they fit |
| Base64.PlainAccepts | frontend/src/lib/crypto.js:32-36 | Without padding and white space: letters of either alphabet, in a length that is no 4k+1 |
| Framing.Set | frontend/src/lib/crypto.js:55-57 | Copies into the buffer at an offset and leaves the rest alone |
| Framing.PackFilePayload | frontend/src/lib/crypto.js:192-199 | Lays down length, header and content |
| Framing.UnpackPacked | frontend/src/lib/crypto.js:191-217 | A packed file unpacks to itself exactly if its header is shorter than 2^32 bytes |
| Framing.UnpackedIs | frontend/src/lib/crypto.js:202-217 | What unpacks is exactly what is a length, a header of that length that parses, and content |
| Framing.ReadBe32Be32 | frontend/src/lib/crypto.js:195-207 | Reading a written length gives it back modulo 2^32 |
| Framing.Be32ReadBe32 | frontend/src/lib/crypto.js:195-207 | Four bytes are the big-endian form of the number they read as |
| Framing.BigEndian | frontend/src/lib/crypto.js:195-207 | The first of the four bytes counts most, read and written |
| Framing.LayPassphraseBlob | frontend/src/lib/crypto.js:104-121 | Lays down magic, salt, iterations, iv and ciphertext at their offsets |
| Framing.LayKeyBlob | frontend/src/lib/crypto.js:54-57 | Lays down iv and ciphertext |
| Framing.LaidAt | frontend/src/lib/crypto.js:104-121 | Magic, salt, iterations with the first byte counting most, iv and ciphertext stand at 0, 4, 20, 24 and 36 |
| Framing.UnpackedAs | frontend/src/lib/crypto.js:202-217 | What unpacks has the name, type and content packed, or the fallbacks where the header lacks a name or a type |
| Framing.ParseLaid | frontend/src/lib/crypto.js:123-150 | The parser recovers all four parts of any well-formed blob |
| Framing.LaidParsed | frontend/src/lib/crypto.js:123-150 | Any blob the parser accepts is well-formed and consists of just the parts it reports |
| Framing.Mistaken | frontend/src/lib/crypto.js:123-126 | A blob made with a key passes for a passphrase blob exactly if its iv starts with the magic and its ciphertext is longer than 24 bytes |
| Encryption.EncryptBytes | frontend/src/lib/crypto.js:41-59 | The blob is iv and sealed bytes, the key is the URL form of the raw key |
| Encryption.EncryptBytesWithPassphrase | frontend/src/lib/crypto.js:104-121 | The blob is laid out from salt, count, iv and the bytes sealed under the derived key |
| Encryption.KeyRoundTrip | frontend/src/lib/crypto.js:61-74 | Decrypting with the link's key gives back the bytes |
| Encryption.PassphraseRoundTrip | frontend/src/lib/crypto.js:128-150 | Decrypting with the passphrase gives back the bytes, and the blob is recognized |
| Encryption.OpensWithKey | frontend/src/lib/crypto.js:61-74 | A key opens exactly if it decodes to 16, 24 or 32 bytes under which the cipher opens what follows the first twelve |
| Encryption.FileByLink | frontend/src/lib/crypto.js:187-217 | File to blob to file by link is the identity exactly if the header fits its frame |
| Encryption.FileByPassphrase | frontend/src/lib/crypto.js:187-217 | So it is under a passphrase |
| Encryption.TextByLink | frontend/src/lib/crypto.js:152-162 | A text comes back through base64 and the cipher exactly if its character encoding is lossless on it |
| Encryption.TextByPassphrase | frontend/src/lib/crypto.js:164-185 | So it does under a passphrase |
| Text.SplitJoin | internal/core/oidc/flow.go:102-116 | Splitting what was joined gives back parts that hold no dot |
| Text.SplitDotless | internal/core/oidc/flow.go:111-116 | The parts of a split hold no dot and join to the text |
| Text.ParseFormat | internal/core/oidc/flow.go:103-132 | A formatted number parses to itself exactly within 64 bits |
| Text.HexRoundTrip | internal/core/oidc/flow.go:108-124 | Hexadecimal decoding gives back the bytes |
| Text.TrimSpaceTakes | internal/domain/secrets/handler.go:121 | Trimming takes the blanks off both ends and nothing else |
| Text.HexIs | internal/core/oidc/flow.go:108-124 | A byte is two hexadecimal digits, the higher one first |
| Cookies.StateRoundTrip | internal/core/oidc/flow.go:102-137 | A signed state verifies to itself exactly if no field holds a dot and the expiry is not past |
| Cookies.StateAccepted | internal/core/oidc/flow.go:111-137 | Accepted is exactly what carries the MAC of its own first five parts and is not past its own expiry |
| Cookies.BodiesDiffer | internal/core/oidc/flow.go:102-109 | Two dotless payloads with expiries have the same signed body only if they are the same |
| Cookies.SignedParts | internal/core/oidc/flow.go:111-115 | A signed state has six parts exactly if no field holds a dot |
| Cookies.SignedAs | internal/core/oidc/flow.go:102-109 | The text of a signed state: its fields and its expiry in this order, and the MAC of just that |
| Cookies.MintedReturns | internal/core/oidc/flow.go:35-50 | Every state that a sign-on starts with, for a provider id that validation lets pass, verifies until it expires and reads as expired after |
| Cookies.SessionRoundTrip | internal/core/session/session.go:40-81 | A signed session verifies to its claims and its expiry until then, and reads as expired after |
| Cookies.SessionAccepted | internal/core/session/session.go:53-81 | Accepted claims are exactly those that stand, encoded, before the MAC of that very text and are not past their expiry |
| Cookies.RawUrlRoundTrip | internal/core/session/session.go:47-72 | The unpadded URL encoding decodes to its bytes and holds no dot |
| Cookies.RawUrlAccepts | internal/core/session/session.go:60-72 | The decoder accepts exactly letters of the URL alphabet in a length that is no 4k+1, line ends apart |
| Users.Store.Get | internal/domain/users/store.go:40-63 | Finds the record under the normalized address |
| Users.Store.List | internal/domain/users/store.go:65-86 | Lists every record once, or fails if one does not decode |
| Users.Store.Upsert | internal/domain/users/store.go:88-121 | Writes under the normalized address, keeps the first creation time and stamps the update |
| Users.Store.Delete | internal/domain/users/store.go:123-135 | Removes the normalized address and nothing else |
| Users.Store.CountByRole | internal/domain/users/store.go:137-160 | Counts the holders of a role, or fails if a record does not decode |
| Users.OtherEnabledAdmins | internal/domain/users/handler.go:268-284 | Counts the enabled admins under other addresses |
| Users.UpsertKeeps | internal/domain/users/store.go:88-121 | Writing keeps every record under its own normalized address with a creation time |
| Users.NormalizeTwice | internal/models/user/user.go:98-101 | Normalizing an address again changes nothing |
| Recovery.Codes.constructor | internal/models/user/user.go:161-174 | One hash for each code, of its normal form, in order |
| Recovery.Codes.Consume | internal/models/user/user.go:176-190 | Accepts exactly if a hash suits the normal form, and closes the gap in place as the specification says |
| Recovery.ConsumedIs | internal/models/user/user.go:183-187 | Exactly one hash goes, the first that suits; the others keep their order, and the multiset shrinks |
| Recovery.RunShrinks | internal/models/user/user.go:176-190 | Over any run of attempts hashes only leave |
| Recovery.EachCodeOnce | internal/models/user/user.go:176-190 | In any run of attempts a code is accepted exactly if it was issued and no earlier attempt had the same normal form |
| SignIns.CodeGoesIfWritten | internal/domain/auth/2fa.go:180-195 | A sign-in with a recovery code is accepted whatever fails, and the code leaves the record exactly if one of the two writes lands |
| SignIns.CodeWorksOnce | internal/domain/auth/2fa.go:180-195 | In any history, once a use has been written no later sign-in passes with that code in any spelling, until codes are issued anew or an account moves to the address |
| UserWitnesses.OneCodeTwice | internal/domain/auth/2fa.go:180-195 | Two sign-ins that both read before either writes pass with one code |
| UserWitnesses.OneCodeOnce | internal/domain/auth/2fa.go:180-195 | One after the other the second does not |
| Overlap.SpentThrough | internal/domain/auth/2fa.go:180-195 | In every interleaving of reads and writes a code that suits nothing in a record suits nothing at any later moment exactly if no record with a hash that it suits is written under the address meanwhile |
| Overlap.CodeComesBack | internal/domain/auth/2fa.go:180-195 | In every interleaving, after a write without the code a sign-in passes with it, in any spelling, only once a record that still had it was written back |
| Overlap.BothSpend | internal/domain/auth/2fa.go:180-195 | Both writes of a sign-in with a recovery code carry a record that no longer has it |
| UserWitnesses.UsedCodeComesBack | internal/domain/auth/webauthn.go:133-171 | A run in which a code whose use was written works again, brought back by a passkey that was being added, no two sign-ins overlapping |
| Recovery.NormIsSqueezed | internal/models/user/user.go:152-159 | Case, dashes and spaces make no difference exactly as long as trimming takes off spaces only |
| Recovery.SqueezedAt | internal/models/user/user.go:152-159 | Wherever it stands a dash or a space makes no difference, and any other character stays, lowered |
| Recovery.LowersCase | internal/models/user/user.go:98-101 | Lowering tells texts apart exactly if they differ in more than case |
| Recovery.DashKeepsTab | internal/models/user/user.go:152-159 | Two spellings that differ in a dash only and do not compare alike |
| Recovery.FormattedNorm | internal/models/user/user.go:135-159 | The normal form of a generated code is its fifteen letters |
| TwoFactor.TwoFactorHolds | internal/domain/auth/2fa.go:39-195 | Under every interleaving of all reads and writes: enabled means a sealed secret that a valid code confirmed, not enabled means no recovery codes, and there are never more than ten |
| TwoFactor.KeyedHolds | internal/domain/users/store.go:88-121 | Under the same interleavings every record lies under its own normalized address |
| TwoFactor.StepKeeps | internal/domain/auth/2fa.go:39-195 | Every start, write, crash and spoiled row keeps the record invariant, for records stored and in flight |
| TwoFactor.BeginKeeps | internal/domain/auth/2fa.go:39-195 | Whatever any handler plans to write from a good record is good |
| Lockout.NeverLockedOut | internal/domain/users/handler.go:160-284 | No run of admin and self-service requests, whichever transactions fail, leaves no enabled admin where there was one |
| Lockout.UpdateServed | internal/domain/users/handler.go:160-239 | An update leaves an enabled admin |
| Lockout.DeleteServed | internal/domain/users/handler.go:241-266 | A deletion leaves an enabled admin |
| Lockout.MoveServed | internal/domain/auth/account.go:30-81 | Re-keying leaves an enabled admin, whether or not the old record goes |
| Lockout.SignOnKeepsAdmin | internal/domain/auth/oidc.go:136-178 | A sign-on leaves an enabled admin exactly if it makes or keeps this user one or there is another |
| Lockout.SetRoleKeepsAdmin | internal/cli/user.go:221-253 | A role set from the command line leaves an enabled admin exactly if it makes an enabled user one or there is another |
| Lockout.CliDeleteKeepsAdmin | internal/cli/user.go:193-219 | A deletion from the command line leaves an enabled admin exactly if there is another |
| Lockout.CliCreateKeepsAdmin | internal/cli/user.go:102-161 | Creating from the command line, which has no guard, leaves an enabled admin exactly if it makes one or there is another |
| UserWitnesses.SignOnLocksOut | internal/domain/auth/oidc.go:136-178 | A sign-on that leaves no enabled admin |
| UserWitnesses.SetRoleLocksOut | internal/cli/user.go:221-253 | A role set from the command line that leaves no enabled admin |
| UserWitnesses.CliDeleteLocksOut | internal/cli/user.go:193-219 | A deletion from the command line that leaves no enabled admin |
| UserWitnesses.CliCreateLocksOut | internal/cli/user.go:102-161 | A creation from the command line that leaves no enabled admin |
| UserWitnesses.TwoDeletionsLockOut | internal/domain/users/handler.go:241-266 | Two deletions that overlap, both past the guard, that leave no enabled admin |
| Overlap.AdminsThrough | internal/domain/users/store.go:88-135 | In every interleaving of reads and writes there is an enabled admin at every moment from one on exactly if every write that lands, and every row that is spoiled, makes one or meets a bucket with another |
| Overlap.FreshSpares | internal/domain/users/handler.go:160-284 | A console request that meets the bucket it was planned from leaves an enabled admin: only older plans lock out |
| UserWitnesses.OldRecordLocksOut | internal/domain/auth/webauthn.go:133-171 | A run in which a passkey being added takes back a promotion after the only other admin was deleted, past the guard, and leaves nobody |
| Lockout.PinnedStaysAdmin | internal/domain/auth/oidc.go:136-178 | No run of sign-ins, by provider, password or passkey, and of what users do for themselves at their address, takes the role of a pinned admin |
| Lockout.CreatedOnce | internal/domain/users/store.go:104-113 | Through any run of requests, commands and sign-ons an account keeps its creation time, wherever its address goes |
| Lockout.ServedAge | internal/domain/auth/account.go:67-75 | One request keeps the creation time of every account, the re-keyed one included |
| Console.Console.LocalSelfUser | internal/domain/auth/2fa.go:18-35 | The record of the signed-in user, if there is one and it is enabled |
| Console.Console.TwoFASetup | internal/domain/auth/2fa.go:39-79 | Answers and writes as planned: a new sealed secret, pending, for a local account with its password and two-factor off |
| Console.Console.TwoFAConfirm | internal/domain/auth/2fa.go:81-120 | Answers and writes as planned: on, with new codes, for a valid code against the pending secret |
| Console.Console.TwoFADisable | internal/domain/auth/2fa.go:122-146 | Answers and writes as planned: off, secret and codes wiped, for the right password |
| Console.Console.TwoFARecoveryRegenerate | internal/domain/auth/2fa.go:148-178 | Answers and writes as planned: fresh codes, for the right password and two-factor on |
| Console.Console.VerifySecondFactor | internal/domain/auth/2fa.go:180-195 | A valid current code, or else a recovery code that is used up in place and saved at once |
| Console.Console.PasswordLogin | internal/domain/auth/handler.go:90-163 | Answers and writes as planned; a session is minted exactly for an enabled record with a password hash that suits the password and, with two-factor on, a current code of its sealed secret or an unused recovery code; the code is asked for exactly if only it is missing |
| Console.Console.ChangeEmail | internal/domain/auth/account.go:30-81 | Answers and writes as planned: the new record first, the old one removed after |
| Console.Console.ChangePassword | internal/domain/auth/account.go:83-115 | Answers and writes as planned: a new hash for the right password and one of acceptable length |
| Console.Console.CreateUser | internal/domain/users/handler.go:102-149 | Answers and writes as planned: a new record for a free address, local or for single sign-on |
| Console.Console.UpdateUser | internal/domain/users/handler.go:160-239 | Answers and writes as planned, behind the lockout guard; on success name, role, state, password, second factors and passkeys have the values asked for or their old ones, and nothing else changes in this or any other record |
| Console.Console.DeleteUser | internal/domain/users/handler.go:241-266 | Answers and writes as planned: the record goes, behind the lockout guard |
| Console.Console.ProvisionOidc | internal/domain/auth/oidc.go:136-178 | Answers and writes as planned: role and pin of an admitted sign-on |
| Deeds.SetupDone | internal/domain/auth/2fa.go:39-79 | Enrolment succeeds exactly for an enabled record whose hash suits the password, with two-factor off, and sets the pending secret only |
| Deeds.ConfirmDone | internal/domain/auth/2fa.go:81-120 | It is confirmed exactly by a valid code for the pending secret, and sets the switch and the codes only |
| Deeds.DisableDone | internal/domain/auth/2fa.go:122-146 | Two-factor is switched off exactly for the right password, and secret and codes go |
| Deeds.RegenerateDone | internal/domain/auth/2fa.go:148-178 | New codes replace the old ones exactly for the right password with two-factor on |
| Deeds.PasswordChanged | internal/domain/auth/account.go:83-115 | The hash changes exactly for the right password and a new one of 8 to 72 characters |
| Deeds.EmailChanged | internal/domain/auth/account.go:30-81 | The record moves exactly for the right password and a valid free address, and changes in nothing else; the old key goes if it can be removed |
| Deeds.PasskeyBegun | internal/domain/auth/webauthn.go:84-131 | Registration starts exactly for the right password, and makes a handle where there is none |
| Deeds.PasskeyAdded | internal/domain/auth/webauthn.go:133-171 | A passkey is added for any enabled user, and changes the passkeys only |
| Deeds.PasskeyDropped | internal/domain/auth/webauthn.go:194-240 | A passkey is dropped exactly for the right password |
| Deeds.PasskeyUsed | internal/domain/auth/webauthn.go:269-360 | A sign-in with a passkey notes its use and the login for an enabled user |
| Deeds.PasswordAsked | internal/domain/auth/2fa.go:39-195 | In every plan, whatever was read when: no request that carries a password gets anywhere unless the record is enabled, has a hash, and the hash suits it |
| Deeds.LoginPlanned | internal/domain/auth/handler.go:90-163 | Who is let in, and who is asked for a code, in terms of the record and the libraries |
| Deeds.LoginDone | internal/domain/auth/handler.go:90-163 | What a sign-in leaves: the time of the login, and where it used a recovery code that code gone, by which writes land |
| Deeds.CreateDone | internal/domain/users/handler.go:102-149 | A user is created exactly under a valid free address, with a known role and an acceptable password or none, and has exactly these fields |
| Deeds.UpdateDone | internal/domain/users/handler.go:160-239 | An update succeeds exactly if role and password are acceptable and it does not take the last enabled admin, and then every field is as asked for or as it was |
| Deeds.DeleteDone | internal/domain/users/handler.go:241-266 | A deletion succeeds exactly if it does not take the last enabled admin, and removes this record only |
| Deeds.FirstSignOn | internal/domain/auth/oidc.go:136-178 | A first sign-on makes a record exactly if a role is granted or it is pinned, with exactly these fields |
| Deeds.SignedOnAgain | internal/domain/auth/oidc.go:136-178 | A later one succeeds exactly for an enabled record that is pinned or granted a role; it changes role, pin, subject, name and login time only |
| Deeds.CliCreated | internal/cli/user.go:93-168 | Creating from the command line makes a record under a valid address that is free, with exactly these fields |
| Deeds.CliRecreated | internal/cli/user.go:93-168 | Over an existing record it sets role, state, pin and password and leaves the rest |
| Deeds.RoleSet | internal/cli/user.go:221-253 | A role is set, and with it the pin, exactly unless it is taken from the last admin, enabled or not |
| Deeds.CliDeleted | internal/cli/user.go:193-219 | A deletion from the command line succeeds exactly unless it takes the last admin, enabled or not |
| Deeds.PasswordReset | internal/cli/user.go:255-292 | A reset sets hash and source of any record there is |
| Deeds.Bootstrapped | internal/cli/serve.go:133-167 | The admin of the configuration is made exactly where there is no record under his address |
| Oidc.LowerTrimAll | internal/core/env/config.go:525-537 | The loop gathers the trimmed, lowered entries that are not empty |
| Oidc.MatchEmail | internal/core/oidc/allow.go:65-74 | Finds an address exactly if it is listed |
| Oidc.AnyGroupMatch | internal/core/oidc/allow.go:113-125 | Finds a match exactly if some group, lowered, is wanted |
| Oidc.ExtractGroups | internal/core/oidc/allow.go:127-150 | Gathers the texts under the claim, in order, whatever shape it has |
| Oidc.MatchDomain | internal/core/oidc/allow.go:37-47 | Finds an address exactly if it is something, an at-sign, and a listed host without another one |
| Oidc.Admit | internal/core/oidc/allow.go:22-63 | Admits exactly verified users, where that is required, whose address, host or some group is listed, or everybody where nothing at all is listed |
| Oidc.HostDecides | internal/core/oidc/allow.go:37-47 | Where only domains are listed, exactly the addresses at one of them get in |
| Oidc.GroupsAre | internal/core/oidc/allow.go:127-150 | The groups are exactly the texts that the token carries under the claim |
| Oidc.GrantIs | internal/core/oidc/allow.go:87-111 | Which role comes out, and whether it is pinned, in terms of the lists and the default |
| Oidc.ValidatedIs | internal/core/env/config.go:460-522 | Validation refuses exactly groups without a claim and an unknown default role, and its lists hold the trimmed, lowered entries |
| Oidc.RoleFor | internal/core/oidc/allow.go:87-111 | The first of admin address, admin group, user group and default that applies |
| Oidc.GrantedIsAdmitted | internal/core/oidc/allow.go:10-111 | Whoever a rule gives a role is admitted |
| Oidc.OnlyTheSetCounts | internal/core/oidc/allow.go:49-125 | Order, repetition and case of groups change neither admission nor role |
| Oidc.MoreGroups | internal/core/oidc/allow.go:87-111 | More groups lower a role exactly if the default is admin, no rule named the user before, and now a user group does and no admin group |
| Oidc.ValidatedTwice | internal/core/env/config.go:494-511 | Validating what validation has normalized changes nothing |
| Oidc.AdminBySpelling | internal/core/env/config.go:504-508 | After validation an address is an administrator's exactly if it equals a listed one up to case and surrounding blanks |
| Oidc.EmailIsKey | internal/core/oidc/allow.go:89 | The address matched against the lists is the key of the user record |
| Oidc.SignsOnAsGranted | internal/domain/auth/oidc.go:143-173 | A user whom a rule gives a role signs on as exactly that, unless disabled, and a pinned one as admin |

## Left out

- Request bodies: decoding JSON and forms, content types and rate limits.
- Guarantees.AlwaysTheSameCiphertext: rests on the edge and the handler reading one draft. The edge reads the body as JSON (`internal/server/multiview.go:40`) and the handler by its content type (`internal/domain/secrets/handler.go:32`); a body that is both a form and JSON gives them different ciphertexts, and then the budget's copy is not the secret's.
- HTTP itself: Fiber, TLS and ACME, cookies' attributes, metrics, logging, the same-origin guard.
- Random ids are fresh: `NewID` is a choice of an id never issued before, of secrets and files together.
- The meta route of files: it reads the file bucket and changes nothing.
- Reveals that arrive before the create has answered are part of the protocol, but order, exactness and session claims are made for ids they did not touch; the bounds and the fidelity of the ciphertext hold for all.
- Integer width: a stored budget is at least one and is only counted down, and lengths are lengths of stored data; only the four-byte frame and the 64-bit expiry can overflow, and there it is modelled.
- The order in which a bucket is walked is left open; bolt walks keys in ascending order.
- Deleting under a bolt cursor is taken to be safe, as the source says at that place.
- Text.TrimSpace: knows the ASCII blanks and, like `Recovery.ToLower`, no Unicode beyond them.
- Lockout.NeverLockedOut: requests run one after the other (`Overlap` says what holds when they do not), and sign-ons of users who are not pinned and the command line are not among them; what these do is stated by the conditions named above.
- Recovery.EachCodeOnce: every use is written at once here; `SignIns` follows the record, where it may not be.
- SignIns.CodeWorksOnce: requests run one after the other; `Overlap` says what holds when they do not.
- Settings.Validate: the verdicts on TLS and on sign-in enter as parameters; what these check is not modelled, apart from the lists and the default role in `Oidc`.
- Recovery.Codes.Consume: shifts a buffer into which the codes of a record are loaded and from which they are written back; in the source the slice is the record's own.
- Users: records are values that are read, edited and written back, as the source does with decoded copies; the lengths of passwords set from the command line are not checked.
- Accounts: the requests for passkeys, of the command line and of the bootstrap admin are not given as code; `Deeds` states what they do, as it does for the others.
- Passkeys: registering and using them are writes of the record like any other; the ceremonies are not modelled.
- Oidc: discovery, the token exchange and the verification of ID tokens; of provider validation only the lists, the claim and the default role, and the alphabet of provider ids.
- The text of configuration: Viper, environment overrides, the splitting of comma lists.
- The pages of the frontend; they choose the way to decrypt by what the link's fragment holds.
