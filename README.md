# nckh backend core in Dafny

A Dafny model of the core of the nckh backend. The backend is a Spring
application that generates music, lyrics, sheet music, face-swap videos and
outfit merges on behalf of logged-in users. The model covers:

- **Generation-job lifecycles.** These are modelled as state machines over
  the job records: the outfit-merge poll and download-retry loops, the
  face-swap task registry and its temp-file cleanup, Suno and MusicGen music
  tasks with their webhooks, and KlangIO sheet transcription with its
  webhook. Provider replies (HTTP, SDK) are oracle values passed in.
- **MusicXML lyric attachment.** The score is a list of notes, and each note
  is a sequence of child element trees. The list is an `array` that the
  attach loops update in place.
- **Lyrics text utilities.** This covers line truncation, stanza layout,
  verse grouping, rhyme pairing, theme and mood tagging, and the clean-up of
  AI output.
- **Account security state.** This covers the failed-login counter and lock,
  refresh-token rotation, the e-mail verification token lifecycle, and the
  `User` predicates.
- **Validators.** This covers the MinIO bucket, expiry and upload checks, the
  upload checks of the two controllers, and the client-IP header precedence.

Modelling conventions:

- One module per source file, plus `Wrappers` (Option, Result, Outcome) and
  `JavaText` (Java `String` semantics over Unicode scalar values; see "## Left out").
  - `JavaText` models `split` on a character, which drops trailing empty
    strings.
  - It models `trim` (code points at most `' '`), `isBlank`, regex `\s`
    tokens, and `contains`/`startsWith`/`endsWith`.
- Time is an `int` of milliseconds, and the current instant is a parameter.
- `toLowerCase` and the Unicode letter class `\p{L}` are function-typed
  parameters.
- Entities that the services update through setters are classes:
  `FaceSwapProject`, `OutfitMergeJob`, `MusicGenTask`, `SheetMusic`, `User`
  and the lyrics compositions. Each class has a `Snapshot()` record.
  - Each state-changing method ensures that the new snapshot is a pure
    function of the old one.
  - The properties the code promises are proved about those functions.

## Model

| member | source | states |
|---|---|---|
| `AuthController.ClientIpPrecedence` | backend/src/main/java/com/nckh/controller/AuthController.java:119-131 | A non-empty X-Forwarded-For wins: the result is its first comma-separated piece, trimmed, and it is an error when the header is only commas. Otherwise a non-empty X-Real-IP is returned unchanged. Otherwise the remote address is returned. |
| `AuthController.ForwardedAddressShape` | backend/src/main/java/com/nckh/controller/AuthController.java:120-123 | For a forwarded list with a comma that does not start with one, the client address has no comma and is shorter than the header. |
| `UploadValidation.ValidateFileVideo` | src/main/java/com/nckh/controller/FaceSwapController.java:134-149 | Passes iff the video is non-empty, has a "video/" content type and is at most 100 MiB. Each failure carries its own message, checked in that order. |
| `UploadValidation.CheckImage` | src/main/java/com/nckh/controller/FaceSwapController.java:157-165 | One image passes iff its content type starts with "image/" and it is at most 5 MiB. The type is checked before the size. |
| `UploadValidation.CheckEachImage` | src/main/java/com/nckh/controller/FaceSwapController.java:157-166 | The list passes iff every image passes. Otherwise the error is the one of the first failing image. |
| `UploadValidation.ValidateFilesImage` | src/main/java/com/nckh/controller/FaceSwapController.java:151-167 | Passes iff the list is non-empty and every image is acceptable. The empty list gives "Source image is required". Otherwise the first bad image decides the error. |
| `UploadValidation.LimitsAreInclusive` | src/main/java/com/nckh/controller/FaceSwapController.java:145-165 | Exactly 100 MiB (video) and exactly 5 MiB (image) pass. One byte more fails. |
| `FaceSwapController.ProcessSingle` | src/main/java/com/nckh/controller/FaceSwapController.java:33-56 | The request is built iff the image and then the video pass, and the first failing check gives the error. The built request carries the title. |
| `FaceSwapController.ProcessMulti` | src/main/java/com/nckh/controller/FaceSwapController.java:60-83 | The video is checked first, then the source list, then the destination list. The request is built, without a title, iff all three pass. |
| `FaceSwapController.OrderDecidesTheError` | src/main/java/com/nckh/controller/FaceSwapController.java:40-41 | With a bad image and an empty video, the single endpoint reports the image error and the multi endpoint reports the video error. |
| `OutfitMergeController.ValidateGarmentAndModel` | src/main/java/com/nckh/controller/OutfitMergeController.java:93-109 | Garment and model pass the same image rules. The garment is checked first. |
| `OutfitMergeController.Merge` | src/main/java/com/nckh/controller/OutfitMergeController.java:28-45 | Success iff both images pass and the service succeeds, and then the data is the service result. Any failure becomes `success=false` with no data and no message. |
| `OutfitMergeController.WrapFetch` | src/main/java/com/nckh/controller/OutfitMergeController.java:48-64 | Success iff the fetch succeeds, with its success message and data. An exception becomes `success=false` with the failure message. |
| `OutfitMergeController.DeleteById` | src/main/java/com/nckh/controller/OutfitMergeController.java:86-91 | A failed delete propagates as an error (no wrapping). Otherwise the reply has success=true (the builder default), the message "Delete successful" and no data. |
| `UserEntity.Authority` | backend/src/main/java/com/nckh/entity/User.java:88 | An authority is "ROLE_" followed by the role's name. |
| `UserEntity.AuthorityInjective` | backend/src/main/java/com/nckh/entity/User.java:88 | Distinct roles give distinct authorities. |
| `UserEntity.Authorities` | backend/src/main/java/com/nckh/entity/User.java:86-90 | A role is held iff its authority is in the result. Every authority starts with "ROLE_". |
| `UserEntity.AuthoritiesCount` | backend/src/main/java/com/nckh/entity/User.java:86-90 | There is exactly one authority per role. |
| `UserEntity.Account.GetAuthorities` | backend/src/main/java/com/nckh/entity/User.java:86-90 | As many authorities as roles, and a role is held iff its authority is present. |
| `UserEntity.Account.IsAccountNonExpired` | backend/src/main/java/com/nckh/entity/User.java:93-95 | Always true. |
| `UserEntity.Account.IsCredentialsNonExpired` | backend/src/main/java/com/nckh/entity/User.java:103-105 | Always true. |
| `UserEntity.LockBoundary` | backend/src/main/java/com/nckh/entity/User.java:98-100 | A lock until t still holds at t and no longer holds at t + 1 ms (the lock must end strictly before now). |
| `UserEntity.User.constructor` | backend/src/main/java/com/nckh/entity/User.java:46-80 | A user from the builder holds the given name, e-mail, status, roles and verification flag. It has no tokens, no lock and zero failed attempts. |
| `AuthService.AfterFailedLogin` | backend/src/main/java/com/nckh/service/impl/AuthServiceImpl.java:180-188 | The counter goes up by one. From the fifth failure on, the lock is set to now + 30 min and the account is locked at that instant. Below five, the lock is unchanged. Nothing else changes. |
| `AuthService.AfterLogin` | backend/src/main/java/com/nckh/service/impl/AuthServiceImpl.java:68-72 | The counter is reset to 0, but the lock is not cleared. A new refresh token expires at now + 7 days. The login time and IP are recorded. Token pairing is kept. |
| `AuthService.NewAccount` | backend/src/main/java/com/nckh/service/impl/AuthServiceImpl.java:99-125 | A registered user is PENDING_VERIFICATION, unverified and not enabled, with the roles {USER} and one authority. The verification token expires at now + 24 h and the refresh token at now + 7 days. The user is unlocked. |
| `AuthService.AfterRefresh` | backend/src/main/java/com/nckh/service/impl/AuthServiceImpl.java:157-158 | The token and its expiry (now + 7 days) are replaced. Nothing else changes. |
| `AuthService.AfterLogout` | backend/src/main/java/com/nckh/service/impl/AuthServiceImpl.java:170-171 | The refresh token and its expiry are cleared. Nothing else changes. |
| `AuthService.AfterVerify` | backend/src/main/java/com/nckh/service/impl/AuthServiceImpl.java:224-227 | The user becomes verified and ACTIVE, the verification token is cleared, and a user who is not deleted becomes enabled. |
| `AuthService.AfterResend` | backend/src/main/java/com/nckh/service/impl/AuthServiceImpl.java:248-250 | A new verification token expiring at now + 24 h is issued. Nothing else changes. |
| `AuthService.RefreshCheck` | backend/src/main/java/com/nckh/service/impl/AuthServiceImpl.java:143-152 | Passes iff the token is valid, belongs to a user and has not expired. Each refusal gives its own message, checked in that order. |
| `AuthService.VerifyCheck` | backend/src/main/java/com/nckh/service/impl/AuthServiceImpl.java:217-222 | Passes iff the token belongs to a user and has not expired. Otherwise the result is "Invalid verification token" or "Verification token has expired". |
| `AuthService.ResendCheck` | backend/src/main/java/com/nckh/service/impl/AuthServiceImpl.java:240-245 | Passes iff the e-mail belongs to an unverified user. |
| `AuthService.RegisterCheck` | backend/src/main/java/com/nckh/service/impl/AuthServiceImpl.java:89-96 | A taken username is reported before a taken e-mail. Passes iff neither is taken. |
| `AuthService.FewFailuresKeepLock` | backend/src/main/java/com/nckh/service/impl/AuthServiceImpl.java:178-191 | While the total stays below five, failed logins only count up and leave the lock as it was. |
| `AuthService.FailuresLock` | backend/src/main/java/com/nckh/service/impl/AuthServiceImpl.java:178-191 | Once the total reaches five, the lock is 30 min after the last failure, and the account is locked throughout that window. |
| `AuthService.VerificationLifecycle` | backend/src/main/java/com/nckh/service/impl/AuthServiceImpl.java:216-235 | A new account is not enabled. Its token verifies within 24 h. After verification the account is enabled and the same token can no longer be found. |
| `AuthService.HandleFailedLogin` | backend/src/main/java/com/nckh/service/impl/AuthServiceImpl.java:178-191 | A known user's record becomes `AfterFailedLogin` of the old one. An unknown user changes nothing. |
| `AuthService.Login` | backend/src/main/java/com/nckh/service/impl/AuthServiceImpl.java:45-83 | A locked principal is refused and unchanged. An unlocked one is updated by `AfterLogin`. Bad credentials give "Invalid username/email or password" and a failed-login update of the looked-up user. Any other authentication failure (a locked or disabled account refused by the manager) passes through with its own message, and no record changes. |
| `AuthService.Register` | backend/src/main/java/com/nckh/service/impl/AuthServiceImpl.java:87-138 | Fails exactly as `RegisterCheck` says. Otherwise it returns a new user whose record is `NewAccount`. |
| `AuthService.RefreshToken` | backend/src/main/java/com/nckh/service/impl/AuthServiceImpl.java:142-162 | The outcome is `RefreshCheck`. The record is rotated by `AfterRefresh` on success and left unchanged on refusal. |
| `AuthService.Logout` | backend/src/main/java/com/nckh/service/impl/AuthServiceImpl.java:166-176 | An unknown user gives "User not found". Otherwise the record becomes `AfterLogout`. |
| `AuthService.VerifyEmail` | backend/src/main/java/com/nckh/service/impl/AuthServiceImpl.java:216-235 | The outcome is `VerifyCheck`, and the record becomes `AfterVerify` on success and is unchanged otherwise. After success the token no longer matches, so it cannot verify twice. |
| `AuthService.ResendVerificationEmail` | backend/src/main/java/com/nckh/service/impl/AuthServiceImpl.java:239-262 | The outcome is `ResendCheck`. The record gets a new token via `AfterResend` on success and is unchanged otherwise. |
| `AuthService.PairedTokensHaveExpiry` | backend/src/main/java/com/nckh/service/impl/AuthServiceImpl.java:150 | When every token is stored with its expiry (which all updates preserve), the null-expiry dereference of the refresh and verification checks cannot happen. |
| `MinioService.ValidateBucketName` | src/main/java/com/nckh/service/impl/MinioServiceImpl.java:215-228 | Passes iff the name has 3 to 63 characters and matches `^[a-z0-9][a-z0-9.-]*[a-z0-9]$`. Blank and wrong-length names have their own messages, checked in that order. |
| `MinioService.ValidateExpiryHours` | src/main/java/com/nckh/service/impl/MinioServiceImpl.java:233-237 | Passes iff 1 <= hours <= 168. |
| `MinioService.ValidateUploadParameters` | src/main/java/com/nckh/service/impl/MinioServiceImpl.java:176-190 | Checks, in this order, that the file exists and is regular, that it is non-empty, that the name is not blank, and then the bucket. It passes iff all hold. |
| `MinioService.ValidateStreamUploadParameters` | src/main/java/com/nckh/service/impl/MinioServiceImpl.java:195-210 | Checks, in this order, the stream, the name, the content type, and then the bucket. It passes iff all hold. |
| `MinioService.BucketStep` | src/main/java/com/nckh/service/impl/MinioServiceImpl.java:33-55 | The bucket step completes iff bucketExists returns and, for a missing bucket, makeBucket returns. A RuntimeException gives "Failed to create bucket: " + name; any other exception gives "Unexpected error creating bucket: " + name. |
| `MinioService.BucketsAfter` | src/main/java/com/nckh/service/impl/MinioServiceImpl.java:33-48 | The bucket is there afterwards iff it was there before or the bucket step completed. No other bucket changes. |
| `MinioService.ObjectsAfter` | src/main/java/com/nckh/service/impl/MinioServiceImpl.java:76-84 | The object is stored iff the bucket step completed and the upload call returned, even when presigning then fails. No other object changes. |
| `MinioService.UploadResult` | src/main/java/com/nckh/service/impl/MinioServiceImpl.java:70-94 | A URL with the requested expiry comes back iff the bucket step, the upload and presigning all succeed. Bucket-step messages and a RuntimeException's own message pass through. A checked exception of the upload gets the caller's prefix + file name. A presigning failure gives "Failed to generate presigned URL". |
| `MinioService.StreamUploadResult` | src/main/java/com/nckh/service/impl/MinioServiceImpl.java:134-151 | The same success condition. Every failure, whatever its kind, becomes "Failed to upload file from stream: " + file name. |
| `MinioService.SuccessfulUploadIsStored` | src/main/java/com/nckh/service/impl/MinioServiceImpl.java:67-95 | After a successful upload, its bucket exists and the object is stored in it. |
| `MinioService.ObjectStore.CreateBucketIfNotExists` | src/main/java/com/nckh/service/impl/MinioServiceImpl.java:30-56 | An invalid name is refused with the buckets unchanged. Otherwise the outcome is `BucketStep`'s, with `Ok(created)` on success, and the buckets become `BucketsAfter`. |
| `MinioService.ObjectStore.StoreAndPresign` | src/main/java/com/nckh/service/impl/MinioServiceImpl.java:76-87 | A failed bucket step passes through unchanged. Otherwise: store, then presign. The object is added iff the store call returns. |
| `MinioService.ObjectStore.UploadFile` | src/main/java/com/nckh/service/impl/MinioServiceImpl.java:67-95 | Invalid parameters are refused with nothing changed. Otherwise the result is `UploadResult` with the default expiry and the prefix "Unexpected error uploading file: ", and the state becomes `BucketsAfter`/`ObjectsAfter`. |
| `MinioService.ObjectStore.UploadFileWithExpiry` | src/main/java/com/nckh/service/impl/MinioServiceImpl.java:101-124 | Parameters are checked, then the expiry, before anything changes. Then the result is `UploadResult` with the requested expiry and the prefix "Failed to upload file: ". |
| `MinioService.ObjectStore.UploadStream` | src/main/java/com/nckh/service/impl/MinioServiceImpl.java:130-152 | The stream parameters are checked first. Then the result is `StreamUploadResult`, and the state becomes `BucketsAfter`/`ObjectsAfter`. |
| `MinioService.BucketNameExamples` | src/main/java/com/nckh/service/impl/MinioServiceImpl.java:220-226 | "a-1" is accepted. "-ab" fails the pattern. "ab" fails the length rule. |
| `IntegrateAIService.TrimKeepsOut` | src/main/java/com/nckh/service/impl/IntegrateAIServiceImpl.java:176 | Trimming cannot create a substring that was absent. |
| `IntegrateAIService.DropAsciiLetters` | src/main/java/com/nckh/service/impl/IntegrateAIServiceImpl.java:179 | Skipping the language tag after a fence removes a prefix made only of ASCII letters and leaves a suffix that does not start with one, so the whole run is taken. |
| `IntegrateAIService.DropAsciiLettersOf` | src/main/java/com/nckh/service/impl/IntegrateAIServiceImpl.java:179 | For any run of ASCII letters followed by a text that does not start with a letter, exactly the run is dropped. |
| `IntegrateAIService.RemoveTaggedFences` | src/main/java/com/nckh/service/impl/IntegrateAIServiceImpl.java:179 | Deleting tagged fences never lengthens the text. |
| `IntegrateAIService.FenceOpens` | src/main/java/com/nckh/service/impl/IntegrateAIServiceImpl.java:179 | A text that starts with a fence continues the scan after the fence's letter tag. |
| `IntegrateAIService.TaggedFenceDropped` | src/main/java/com/nckh/service/impl/IntegrateAIServiceImpl.java:179 | For every tag of ASCII letters and every text x not starting with one, a fence followed by the tag and x scrubs to what x scrubs to: the fence and the whole tag are deleted. |
| `IntegrateAIService.TaggedFenceKeepsOther` | src/main/java/com/nckh/service/impl/IntegrateAIServiceImpl.java:179 | For every character c and text x where c + x does not start with a fence, c is kept and the scan continues on x. |
| `IntegrateAIService.RemoveFences` | src/main/java/com/nckh/service/impl/IntegrateAIServiceImpl.java:180 | Deleting fences never lengthens the text and keeps a first character that is not a backtick. |
| `IntegrateAIService.NoFenceLeft` | src/main/java/com/nckh/service/impl/IntegrateAIServiceImpl.java:179-180 | After the fence deletion no "```" remains, including one formed by joining pieces. |
| `IntegrateAIService.StripOpening` | src/main/java/com/nckh/service/impl/IntegrateAIServiceImpl.java:183 | Only a leading "Đây là", "Bài hát" or "Lời bài hát" (tested in that order) is removed, with an optional ':' and following white space. Other text is unchanged. The result is a suffix. |
| `IntegrateAIService.OpeningDropped` | src/main/java/com/nckh/service/impl/IntegrateAIServiceImpl.java:183 | "Lời bài hát: " followed by the lyrics gives back exactly the lyrics. |
| `IntegrateAIService.OpeningKeptInside` | src/main/java/com/nckh/service/impl/IntegrateAIServiceImpl.java:183 | An opening phrase that is not at the start is kept. |
| `IntegrateAIService.CollapseNewlines` | src/main/java/com/nckh/service/impl/IntegrateAIServiceImpl.java:186 | Collapsing newline runs keeps the first character. |
| `IntegrateAIService.DropNewlinesOf` | src/main/java/com/nckh/service/impl/IntegrateAIServiceImpl.java:186 | For any run of newlines followed by a text not starting with a newline, exactly the run is dropped. |
| `IntegrateAIService.NewlineRunCollapsed` | src/main/java/com/nckh/service/impl/IntegrateAIServiceImpl.java:186 | For every run of two or more newlines and every text x not starting with a newline, the run becomes exactly two newlines followed by x collapsed. |
| `IntegrateAIService.CollapseNewlinesKeepsOther` | src/main/java/com/nckh/service/impl/IntegrateAIServiceImpl.java:186 | For every character c and text x where c + x does not start with two newlines (any other character, or a lone newline), c is kept and x is collapsed. |
| `IntegrateAIService.NoTripleNewline` | src/main/java/com/nckh/service/impl/IntegrateAIServiceImpl.java:186 | After collapsing, there are never three newlines in a row. |
| `IntegrateAIService.CollapseNewlinesKeepsOut` | src/main/java/com/nckh/service/impl/IntegrateAIServiceImpl.java:186 | Collapsing newlines creates no newline-free substring that was absent. |
| `IntegrateAIService.CollapseSpaces` | src/main/java/com/nckh/service/impl/IntegrateAIServiceImpl.java:189 | Collapsing space and tab runs leaves no tab. |
| `IntegrateAIService.NoDoubleSpace` | src/main/java/com/nckh/service/impl/IntegrateAIServiceImpl.java:189 | After collapsing, there are no two spaces in a row. |
| `IntegrateAIService.CollapseSpacesKeepsOut` | src/main/java/com/nckh/service/impl/IntegrateAIServiceImpl.java:189 | Collapsing spaces creates no blank-free substring that was absent. |
| `IntegrateAIService.CollapseAndTrimShape` | src/main/java/com/nckh/service/impl/IntegrateAIServiceImpl.java:186-191 | The end of the chain is trimmed at both ends and has no tab, no double space and no triple newline. It has no fence when its input had none. |
| `IntegrateAIService.PostProcessShape` | src/main/java/com/nckh/service/impl/IntegrateAIServiceImpl.java:172-192 | Null gives "". Every result is trimmed and has no tab, no double space, no triple newline and no "```". |
| `IntegrateAIService.ExtractLyricsFromResponse` | src/main/java/com/nckh/service/impl/IntegrateAIServiceImpl.java:44-56 | A missing response, result or output gives "Invalid response from AI model". Null or blank text gives "AI model returned empty lyrics". Otherwise the text is returned untrimmed. |
| `IntegrateAIService.GenerateLyrics` | src/main/java/com/nckh/service/impl/IntegrateAIServiceImpl.java:19-33 | Succeeds iff the model call and the extraction succeed, and then returns the post-processed text. Failures are wrapped as "AI generation failed: " + message. |
| `LyricsService.NormalizeTheme` | backend/src/main/java/com/nckh/service/impl/LyricsServiceImpl.java:178-188 | Null gives "spring", which has no template list. Every non-null theme maps to one of the four template keys. |
| `LyricsService.NormalizeThemeByKeyword` | backend/src/main/java/com/nckh/service/impl/LyricsServiceImpl.java:178-188 | The chain of substring tests is decided by its shortest keywords alone, with "mở" first. The longer tests never change the answer. |
| `LyricsService.ApplyMoodToLyrics` | backend/src/main/java/com/nckh/service/impl/LyricsServiceImpl.java:190-200 | The first of "vui", "buồn", "lãng mạn" found in the lower-cased mood picks one tag line placed before the lyrics. The lyrics are unchanged iff none is found. |
| `LyricsService.SplitAllPrefix` | backend/src/main/java/com/nckh/service/impl/LyricsServiceImpl.java:245-247 | Joining the first k split pieces gives a prefix of the text that is followed by the separator and contains k - 1 separators. |
| `LyricsService.PostProcessLyrics` | backend/src/main/java/com/nckh/service/impl/LyricsServiceImpl.java:242-252 | When the limit is exceeded, only the first `maxLines` lines are kept (a negative limit throws). Otherwise the text is kept whole. The result is always trimmed. |
| `LyricsService.TruncationIsPrefix` | backend/src/main/java/com/nckh/service/impl/LyricsServiceImpl.java:245-251 | A truncated result is the trimmed beginning of the lyrics, up to the newline that ends line m. A zero limit gives "". |
| `LyricsService.FormatLyrics` | backend/src/main/java/com/nckh/service/impl/LyricsServiceImpl.java:254-275 | The loop's text equals the trimmed rendering of the layout function over the split lines. |
| `LyricsService.LayoutKeepsLyricLines` | backend/src/main/java/com/nckh/service/impl/LyricsServiceImpl.java:260-272 | The layout keeps every non-blank line in order and adds only empty lines. |
| `LyricsService.LayoutRunsBounded` | backend/src/main/java/com/nckh/service/impl/LyricsServiceImpl.java:260-272 | No run of more than four non-blank lines: a break follows every fourth line, and a blank line resets the count. |
| `LyricsService.LastTokenOfTrimmed` | backend/src/main/java/com/nckh/service/impl/LyricsServiceImpl.java:299-305 | The last element of `trim().split("\\s+")` is the last word of the trimmed line, and the array is never empty. |
| `LyricsService.LastWordUnique` | backend/src/main/java/com/nckh/service/impl/LyricsServiceImpl.java:304-305 | A text has at most one last word. |
| `LyricsService.CheckRhymeMeaning` | backend/src/main/java/com/nckh/service/impl/LyricsServiceImpl.java:295-315 | Two lines rhyme iff neither is empty and their lower-cased last words both have at least two characters and share the last two. |
| `LyricsService.RhymingPairs` | backend/src/main/java/com/nckh/service/impl/LyricsServiceImpl.java:283-290 | At most one rhyme per pair (0,1), (2,3), …. |
| `LyricsService.CalculateRhymeCounts` | backend/src/main/java/com/nckh/service/impl/LyricsServiceImpl.java:277-293 | pairs = ⌊n/2⌋, which is zero iff there are fewer than two lines. rhymes counts the rhyming pairs and is at most pairs. |
| `LyricsService.BuildVerses` | backend/src/main/java/com/nckh/service/impl/LyricsServiceImpl.java:318-343 | Every verse has one to four non-blank lines. Concatenating the verses gives exactly the non-blank lines, in order. |
| `LyricsService.OwnershipCheck` | backend/src/main/java/com/nckh/service/impl/LyricsServiceImpl.java:416-424 | Passes iff the composition exists, the caller exists and the caller owns it. Missing composition, missing user, a null owner and another owner each fail with their own message. |
| `LyricsService.RatingCheck` | backend/src/main/java/com/nckh/service/impl/LyricsServiceImpl.java:432-440 | Passes iff the composition exists and 1 <= rating <= 5. |
| `LyricsService.LyricsStore.SaveLyricsAsProject` | backend/src/main/java/com/nckh/service/impl/LyricsServiceImpl.java:414-428 | The outcome is `OwnershipCheck`. The project flag is set only when it passes. The rating and owner are unchanged. |
| `LyricsService.LyricsStore.RateLyrics` | backend/src/main/java/com/nckh/service/impl/LyricsServiceImpl.java:431-443 | The outcome is `RatingCheck`. The stored rating changes only when it passes. Other fields are unchanged. |
| `LyricsService.LyricsStore.DeleteLyrics` | backend/src/main/java/com/nckh/service/impl/LyricsServiceImpl.java:454-467 | The outcome is `OwnershipCheck`. The composition is removed iff it passes. Users are unchanged. |
| `MusicService.GetCredits` | src/main/java/com/nckh/service/impl/MusicServiceImpl.java:354-377 | A REST error counts as 0 credits. A reply with no data fails with "Invalid response when fetching credits". Otherwise the count is returned. |
| `MusicService.ChooseProvider` | src/main/java/com/nckh/service/impl/MusicServiceImpl.java:82-88 | Suno iff credits > 12, otherwise MusicGen. |
| `MusicService.ProviderThreshold` | src/main/java/com/nckh/service/impl/MusicServiceImpl.java:44 | Exactly 12 credits selects MusicGen and 13 selects Suno. A failed credit lookup selects MusicGen. |
| `MusicService.KeepLettersAndSpaces` | src/main/java/com/nckh/service/impl/MusicServiceImpl.java:398 | Only letters and white space remain, and a text made only of them is unchanged. |
| `MusicService.CountVietnameseSyllables` | src/main/java/com/nckh/service/impl/MusicServiceImpl.java:397-401 | The count is the number of white-space separated tokens of the cleaned, trimmed text. It is 0 iff nothing is left. |
| `MusicService.LineSeconds` | src/main/java/com/nckh/service/impl/MusicServiceImpl.java:387-391 | A line adds a non-negative number of seconds, and a blank line adds none. |
| `MusicService.TotalSecondsAppend` | src/main/java/com/nckh/service/impl/MusicServiceImpl.java:386-392 | The accumulated seconds of two runs of lines add up. |
| `MusicService.BlankLineAddsNothing` | src/main/java/com/nckh/service/impl/MusicServiceImpl.java:387 | Inserting a blank line anywhere does not change the total. |
| `MusicService.ClampDuration` | src/main/java/com/nckh/service/impl/MusicServiceImpl.java:394 | The result lies in [15, 60] and equals the total when the total is already in range. |
| `MusicService.EstimateDurationFromLyrics` | src/main/java/com/nckh/service/impl/MusicServiceImpl.java:379-395 | The loop's result is the clamped total over the split lines, always in [15, 60]. |
| `MusicService.FailTask` | src/main/java/com/nckh/service/impl/MusicServiceImpl.java:265-274 | The task becomes FAILED with the message and a completion time, and the sheet becomes MUSIC_FAILED. Nothing else changes. |
| `MusicService.FinishTask` | src/main/java/com/nckh/service/impl/MusicServiceImpl.java:182-211 | A stored upload makes the task COMPLETED and the sheet MUSIC_COMPLETED with the audio URL, completion time and processing time. A failed upload is `FailTask` with its message. |
| `MusicService.MusicGenTask.constructor` | src/main/java/com/nckh/service/impl/MusicServiceImpl.java:301-310 | A new task is PENDING with the given provider, prompt and duration, and has no external id. |
| `MusicService.FailMusicGenTask` | src/main/java/com/nckh/service/impl/MusicServiceImpl.java:265-274 | The task and sheet records become `FailTask` of the old ones. |
| `MusicService.CompleteGenTask` | src/main/java/com/nckh/service/impl/MusicServiceImpl.java:182-211 | The task and sheet records become `FinishTask` of the old ones. |
| `MusicService.GenerateWithSunoAI` | src/main/java/com/nckh/service/impl/MusicServiceImpl.java:92-140 | A reply with a task id stores it and moves the task from PENDING to PROCESSING. A reply without one throws and leaves it PENDING. A REST error makes it FAILED with the message and fails. |
| `MusicService.GenerateWithMusicGen` | src/main/java/com/nckh/service/impl/MusicServiceImpl.java:143-161 | The task is created PROCESSING with the estimated duration, and a PROCESSING reply is returned. |
| `MusicService.ProcessMusicGen` | src/main/java/com/nckh/service/impl/MusicServiceImpl.java:165-180 | Generated audio completes the task via `FinishTask`. A generation error fails it via `FailTask`. |
| `MusicService.GenerateMusic` | src/main/java/com/nckh/service/impl/MusicServiceImpl.java:66-89 | Unknown users, unknown lyrics and an invalid credit reply fail before any task exists. Otherwise a task is created for `ChooseProvider(credits)`, and the sheet records that model and the clamped duration. |
| `MusicService.AudioUrlProblem` | src/main/java/com/nckh/service/impl/MusicServiceImpl.java:226-230 | There is no problem iff the first audio URL exists and is non-empty. An empty list is an index error. |
| `MusicService.ProcessCompletedGeneration` | src/main/java/com/nckh/service/impl/MusicServiceImpl.java:215-245 | An unknown task is an error with no change. A bad URL fails the task. Otherwise the task becomes DOWNLOADING with the URL recorded, then is finished or failed by the download. The current status is never checked. |
| `MusicService.ProcessFailedGeneration` | src/main/java/com/nckh/service/impl/MusicServiceImpl.java:249-263 | An unknown task is an error. Otherwise the task fails with the callback message, or with "Unknown error from Suno API" when there is none, whatever its status was. |
| `MusicService.TaskStatusOf` | src/main/java/com/nckh/service/impl/MusicServiceImpl.java:277-299 | The reply reports the sheet status name. A completed task gives the audio URL and the completed message. A failed one gives its error. Anything else gives the in-progress message. |
| `SheetMusicEntity.SheetMusic.constructor` | src/main/java/com/nckh/service/impl/MusicServiceImpl.java:503-514 | A new sheet has the lyrics' title, is DRAFT, and has no task, audio or result. |
| `SheetService.Tagged` | src/main/java/com/nckh/service/impl/SheetServiceImpl.java:349-351 | The descendants with a tag, in document order, all carry that tag. |
| `SheetService.TaggedAppend` | src/main/java/com/nckh/service/impl/SheetServiceImpl.java:349-351 | The tagged descendants of two node runs are concatenated. |
| `SheetService.IsTiedStop` | src/main/java/com/nckh/service/impl/SheetServiceImpl.java:356-372 | The loop says whether the first notations element has a `tied` child whose type is "stop". |
| `SheetService.ValidNotes` | src/main/java/com/nckh/service/impl/SheetServiceImpl.java:321-344 | The kept note indices are strictly increasing and in range, so document order is kept. |
| `SheetService.ValidNotesExactly` | src/main/java/com/nckh/service/impl/SheetServiceImpl.java:321-344 | A note is kept iff it has a pitch, no rest, chord or grace, and is not a tied stop. |
| `SheetService.GetAllValidNotes` | src/main/java/com/nckh/service/impl/SheetServiceImpl.java:321-344 | The loop over the score returns exactly `ValidNotes` of it. |
| `SheetService.Syllables` | src/main/java/com/nckh/service/impl/SheetServiceImpl.java:298-316 | No syllable is empty. |
| `SheetService.BlankLineNoSyllables` | src/main/java/com/nckh/service/impl/SheetServiceImpl.java:303-304 | A blank line contributes nothing. |
| `SheetService.ParseLyrics` | src/main/java/com/nckh/service/impl/SheetServiceImpl.java:298-316 | The loop returns, in order, the non-empty white-space tokens of every trimmed, non-blank line. |
| `SheetService.SyllabicType` | src/main/java/com/nckh/service/impl/SheetServiceImpl.java:444-457 | The type is one of four. It is "begin" or "middle" iff the token ends in '-'. It is "middle" or "end" iff its predecessor ends in '-'. |
| `SheetService.SyllabicChain` | src/main/java/com/nckh/service/impl/SheetServiceImpl.java:444-457 | A syllable opens or continues a word iff the next one continues or ends it. |
| `SheetService.LyricElement` | src/main/java/com/nckh/service/impl/SheetServiceImpl.java:421-439 | The lyric carries the line's number and default-y, a syllabic child with the type, and a text child with every '-' removed. It contains no nested lyric. |
| `SheetService.NumberedLine` | src/main/java/com/nckh/service/impl/SheetServiceImpl.java:524-525 | Line n is numbered n and placed 12 lower per line below the first, so line 1 has the same attributes as the single-line lyric (number "1", default-y "-80"). |
| `SheetService.DropLyricChildren` | src/main/java/com/nckh/service/impl/SheetServiceImpl.java:405-416 | Exactly the non-lyric children remain. |
| `SheetService.DropLeavesNoLyric` | src/main/java/com/nckh/service/impl/SheetServiceImpl.java:405-416 | When all lyrics are direct children, none remains after the removal. |
| `SheetService.RemoveExistingLyrics` | src/main/java/com/nckh/service/impl/SheetServiceImpl.java:405-416 | Succeeds iff every lyric is a direct child, and then leaves exactly the other children and no lyric. Otherwise the DOM's NOT_FOUND error. |
| `SheetService.LocateFindsFirst` | src/main/java/com/nckh/service/impl/SheetServiceImpl.java:464-466 | The search finds nothing iff the note has no notations element. A direct hit is the first one in document order. |
| `SheetService.InsertLyric` | src/main/java/com/nckh/service/impl/SheetServiceImpl.java:462-477 | The lyric goes right after the first notations element when that is a child, or at the end when there is none. It fails only when the first notations is nested and has a next sibling. Nothing else moves. |
| `SheetService.OneLyricAfterAttach` | src/main/java/com/nckh/service/impl/SheetServiceImpl.java:385-391 | After a successful clear-and-insert, the note holds exactly the new lyric. |
| `SheetService.AttachPrefix` | src/main/java/com/nckh/service/impl/SheetServiceImpl.java:377-400 | Attaching to a prefix of the valid notes keeps the number of notes. |
| `SheetService.AttachPrefixValues` | src/main/java/com/nckh/service/impl/SheetServiceImpl.java:377-400 | The i-th valid note gets the i-th syllable's step, and every other note is untouched. |
| `SheetService.AttachPrefixSucceeds` | src/main/java/com/nckh/service/impl/SheetServiceImpl.java:377-400 | The attachment succeeds iff each paired step does. |
| `SheetService.AttachLyrics` | src/main/java/com/nckh/service/impl/SheetServiceImpl.java:380-391 | The in-place loop leaves the score equal to `AttachPrefix` and reports its error. |
| `SheetService.AttachLyricsToNotes` | src/main/java/com/nckh/service/impl/SheetServiceImpl.java:377-400 | The first min(notes, syllables) valid notes get lyric line 1 after their old lyrics are removed, and all other notes are untouched. |
| `SheetService.AttachLyricsWithLineNumber` | src/main/java/com/nckh/service/impl/SheetServiceImpl.java:515-538 | Same pairing with the numbered line, and old lyrics are kept. |
| `SheetService.AddLyricsToMusicXML` | src/main/java/com/nckh/service/impl/SheetServiceImpl.java:251-257 | The score becomes the attachment of the parsed syllables to the valid notes. |
| `SheetService.RemoveAllLyrics` | src/main/java/com/nckh/service/impl/SheetServiceImpl.java:543-553 | When every note's lyrics are direct children, all of them are removed and nothing else. Otherwise NOT_FOUND. |
| `SheetService.AfterCallback` | src/main/java/com/nckh/service/impl/SheetServiceImpl.java:125-160 | Only status, error, XML, model and completion time may change. "COMPLETED" in any letter case with the merged XML gives SHEET_COMPLETED with that XML, model "KlangIO AI" and the completion time. If the download or merge threw, it gives SHEET_FAILED with "Error processing MusicXML: " + the message. Exactly "FAILED" gives SHEET_FAILED with "Generation failed: " + the error (or "null"). Any other status leaves the record unchanged. |
| `SheetService.CallbackStatusMatching` | src/main/java/com/nckh/service/impl/SheetServiceImpl.java:131-158 | "completed" is matched in any letter case. "FAILED" is matched only exactly, so "failed" or no status changes nothing. |
| `SheetService.HandleKlangIOCallback` | src/main/java/com/nckh/service/impl/SheetServiceImpl.java:125-160 | An unknown job id fails. Otherwise the sheet becomes `AfterCallback` of the old one, with no guard on its current status. |
| `SheetService.SubmissionReply` | src/main/java/com/nckh/service/impl/SheetServiceImpl.java:77-120 | A sheet without audio fails on the null dereference. An accepted transcription gives SHEET_GENERATE_PROCESSING. A non-2xx reply gives a FAILED response with the HTTP status. |
| `SheetService.GenerateSheet` | src/main/java/com/nckh/service/impl/SheetServiceImpl.java:70-121 | An unknown user or sheet fails. On acceptance the job id becomes the task id and the status SHEET_GENERATE_PROCESSING. Otherwise the sheet is untouched. |
| `FaceSwapService.LastIndexOf` | backend/src/main/java/com/nckh/service/impl/FaceSwapServiceImpl.java:495 | The index of the last occurrence, or -1 when there is none. |
| `FaceSwapService.GetFileExtension` | backend/src/main/java/com/nckh/service/impl/FaceSwapServiceImpl.java:493-497 | ".tmp" for a null name or when the last dot is at index 0 or missing. Otherwise the suffix from the last dot, which holds no other dot. |
| `FaceSwapService.IdsCover` | backend/src/main/java/com/nckh/service/impl/FaceSwapServiceImpl.java:481-491 | The files of a fully staged list are exactly the ids created for it. |
| `FaceSwapService.TempDir.CreateTempFile` | backend/src/main/java/com/nckh/service/impl/FaceSwapServiceImpl.java:474-479 | One new file, distinct from every existing one, is added. |
| `FaceSwapService.TempDir.DeleteQuietly` | backend/src/main/java/com/nckh/service/impl/FaceSwapServiceImpl.java:499-503 | Removes the file if any. A null or already-missing file is a no-op. |
| `FaceSwapService.TempDir.DeleteEach` | backend/src/main/java/com/nckh/service/impl/FaceSwapServiceImpl.java:414-415 | Removes every file of a list, and a null list is a no-op. |
| `FaceSwapService.CleanUp` | backend/src/main/java/com/nckh/service/impl/FaceSwapServiceImpl.java:410-416 | Removes exactly the staged video, single image and src/dst lists. |
| `FaceSwapService.NewProject` | backend/src/main/java/com/nckh/service/impl/FaceSwapServiceImpl.java:278-287 | A new project is DRAFT with model "SimSwap-v1.0", and its title is the given one or "Face Swap" followed by the current time. |
| `FaceSwapService.FaceSwapProject.constructor` | backend/src/main/java/com/nckh/service/impl/FaceSwapServiceImpl.java:278-287 | The record is `NewProject`. |
| `FaceSwapService.FaceSwapProject.UpdateWithSuccess` | backend/src/main/java/com/nckh/service/impl/FaceSwapServiceImpl.java:523-529 | Sets COMPLETED, the completion time, the processing time and the result video. Nothing else changes. |
| `FaceSwapService.FaceSwapProject.UpdateStatus` | backend/src/main/java/com/nckh/service/impl/FaceSwapServiceImpl.java:531-534 | Sets only the status. |
| `FaceSwapService.AfterProcessing` | backend/src/main/java/com/nckh/service/impl/FaceSwapServiceImpl.java:366-409 | The project ends COMPLETED or FAILED, and COMPLETED iff the reply is 2xx and the upload succeeds, with URL and times. An exception records its message. A non-2xx reply sets only FAILED. The swap type is always recorded. |
| `FaceSwapService.ProcessingReply` | backend/src/main/java/com/nckh/service/impl/FaceSwapServiceImpl.java:378-409 | An exception becomes "Face swap processing failed". A 2xx reply gives COMPLETED with the URL and time. A non-2xx reply gives FAILED, still with the success message. |
| `FaceSwapService.ReplyMatchesProject` | backend/src/main/java/com/nckh/service/impl/FaceSwapServiceImpl.java:378-409 | A returned reply reports the same status, and the same URL when completed, as the stored project. |
| `FaceSwapService.ProcessWithSavedFiles` | backend/src/main/java/com/nckh/service/impl/FaceSwapServiceImpl.java:358-417 | The project becomes `AfterProcessing`, the reply is `ProcessingReply`, and every staged file is deleted on every exit. |
| `FaceSwapService.StoredStatus` | backend/src/main/java/com/nckh/service/impl/FaceSwapServiceImpl.java:122-131 | An unknown id gives "Project not found". A record without a result video fails on the null dereference. Otherwise the stored status, URL and error are reported. |
| `FaceSwapService.PendingQueryKeepsEntry` | backend/src/main/java/com/nckh/service/impl/FaceSwapServiceImpl.java:147-153 | Querying an unfinished task reports PROCESSING and leaves the registry as it was. |
| `FaceSwapService.DoneQueryFallsBack` | backend/src/main/java/com/nckh/service/impl/FaceSwapServiceImpl.java:133-146 | A finished task returns its result once. The next query falls back to the stored record. |
| `FaceSwapService.QueryTouchesOnlyItsEntry` | backend/src/main/java/com/nckh/service/impl/FaceSwapServiceImpl.java:119-154 | A query changes no other task's entry. |
| `FaceSwapService.CancelKeepsFinished` | backend/src/main/java/com/nckh/service/impl/FaceSwapServiceImpl.java:157-165 | Cancelling removes only its own unfinished entry, keeps finished ones and adds none. Cancelling twice is the same as once. |
| `FaceSwapService.CancelledJobIsForgotten` | backend/src/main/java/com/nckh/service/impl/FaceSwapServiceImpl.java:157-165 | After a cancel, queries read the stored record, and a late result is not recorded. |
| `FaceSwapService.RecordedResultIsReturned` | backend/src/main/java/com/nckh/service/impl/FaceSwapServiceImpl.java:133-146 | A recorded result is what the next query returns, and that query removes the entry. |
| `FaceSwapService.Registry.constructor` | backend/src/main/java/com/nckh/service/impl/FaceSwapServiceImpl.java:65 | The registry starts empty. |
| `FaceSwapService.Registry.Register` | backend/src/main/java/com/nckh/service/impl/FaceSwapServiceImpl.java:345 | The id is mapped to a pending task. |
| `FaceSwapService.Registry.RecordResult` | backend/src/main/java/com/nckh/service/impl/FaceSwapServiceImpl.java:321-343 | A registered task becomes done with the result, and an unregistered one is not added. |
| `FaceSwapService.Registry.GetProcessingStatus` | backend/src/main/java/com/nckh/service/impl/FaceSwapServiceImpl.java:119-154 | The reply and the new registry are those of `QueryReply` and `AfterQuery`. |
| `FaceSwapService.Registry.CancelProcessing` | backend/src/main/java/com/nckh/service/impl/FaceSwapServiceImpl.java:157-165 | The registry becomes `AfterCancel`. |
| `FaceSwapService.JobResultMatchesProject` | backend/src/main/java/com/nckh/service/impl/FaceSwapServiceImpl.java:331-341 | The result recorded for a job, including the failure result built by the exception handler, reports the project's final status. |
| `FaceSwapService.NeverStoredAsProcessing` | backend/src/main/java/com/nckh/service/impl/FaceSwapServiceImpl.java:281 | The stored status is never PROCESSING: it starts DRAFT and processing leaves it COMPLETED or FAILED. |
| `FaceSwapService.RunJob` | backend/src/main/java/com/nckh/service/impl/FaceSwapServiceImpl.java:321-343 | A job updates the project by `AfterProcessing`, records its result in the registry and deletes its staged files. |
| `FaceSwapService.LeftBehindAsWritten` | backend/src/main/java/com/nckh/service/impl/FaceSwapServiceImpl.java:307-355 | Files are left behind iff a multi request fails staging after at least the video was created. Their number is the files created before the failure. |
| `FaceSwapService.MultiStagingLeak` | backend/src/main/java/com/nckh/service/impl/FaceSwapServiceImpl.java:481-491 | A multi request whose first source image fails to stage leaves the video file behind. |
| `FaceSwapService.StageOne` | backend/src/main/java/com/nckh/service/impl/FaceSwapServiceImpl.java:474-479 | Either one new file is created, or the creation fails and nothing changes. |
| `FaceSwapService.StageList` | backend/src/main/java/com/nckh/service/impl/FaceSwapServiceImpl.java:481-491 | The list is staged in full, or fails at the failing file, and the files created before it stay. |
| `FaceSwapService.StageMulti` | backend/src/main/java/com/nckh/service/impl/FaceSwapServiceImpl.java:311-312 | The src list, then the dst list. Together they cover exactly the files created. |
| `FaceSwapService.ExecuteAsyncProcessing` | backend/src/main/java/com/nckh/service/impl/FaceSwapServiceImpl.java:294-356 | Succeeds iff staging does: the task is registered as pending and PROCESSING is returned. On failure nothing is registered, and the leaked files are exactly `LeftBehindAsWritten`. |
| `FaceSwapService.ExecuteAsyncProcessingCleaning` | backend/src/main/java/com/nckh/service/impl/FaceSwapServiceImpl.java:348-355 | The same, except that any staging failure leaves the temp directory exactly as it was. |
| `OutfitMergeService.NewMerge` | backend/src/main/java/com/nckh/service/impl/OutfitMergeServiceImpl.java:275-283 | A new merge is DRAFT with model "FitRoom" and no images, time or error. |
| `OutfitMergeService.OutfitMergeJob.constructor` | backend/src/main/java/com/nckh/service/impl/OutfitMergeServiceImpl.java:275-283 | The record is `NewMerge`. |
| `OutfitMergeService.SaveMediaFile` | backend/src/main/java/com/nckh/service/impl/OutfitMergeServiceImpl.java:285-306 | A stored upload gives its file. An I/O failure is wrapped as "Failed to save media file: …". Other failures pass through. |
| `OutfitMergeService.TaskCreated` | backend/src/main/java/com/nckh/service/impl/OutfitMergeServiceImpl.java:151-155 | True iff 2xx with a body whose status is "CREATED". A 2xx body without a status throws. A thrown call propagates. |
| `OutfitMergeService.DownloadFrom` | backend/src/main/java/com/nckh/service/impl/OutfitMergeServiceImpl.java:229-251 | Returns the first 2xx non-null body among the remaining attempts, or nothing. |
| `OutfitMergeService.DownloadAttempts` | backend/src/main/java/com/nckh/service/impl/OutfitMergeServiceImpl.java:229-251 | At most three attempts, and none succeeded before the last one made. The download succeeds iff the last attempt did. |
| `OutfitMergeService.Backoff` | backend/src/main/java/com/nckh/service/impl/OutfitMergeServiceImpl.java:247-249 | The wait before attempt k is 2000·k ms. |
| `OutfitMergeService.DownloadWaitBound` | backend/src/main/java/com/nckh/service/impl/OutfitMergeServiceImpl.java:54-55 | The waits total at most 12 s, and exactly 12 s when every attempt fails. |
| `OutfitMergeService.DownloadResultWithRetry` | backend/src/main/java/com/nckh/service/impl/OutfitMergeServiceImpl.java:223-252 | The loop returns `DownloadFrom` and waits `Backoff` of the attempts made. |
| `OutfitMergeService.AfterCompleted` | backend/src/main/java/com/nckh/service/impl/OutfitMergeServiceImpl.java:199-221 | The processing time is set on every path. The merge is COMPLETED with the result image iff the URL is present, a download succeeds and the upload succeeds. Otherwise it is FAILED with the gave-up message or "Download failed: …". |
| `OutfitMergeService.AfterFailed` | backend/src/main/java/com/nckh/service/impl/OutfitMergeServiceImpl.java:254-258 | FAILED with the provider's "error" field or "Unknown error", and the time set. The images are unchanged. |
| `OutfitMergeService.AfterTimeout` | backend/src/main/java/com/nckh/service/impl/OutfitMergeServiceImpl.java:260-264 | FAILED with "Task timeout after 20 attempts" and the time set. |
| `OutfitMergeService.PollFrom` | backend/src/main/java/com/nckh/service/impl/OutfitMergeServiceImpl.java:169-196 | The poll stops at the first COMPLETED or FAILED status. It times out iff no check was terminal and the last one threw. Otherwise it gives up silently. |
| `OutfitMergeService.AtMostMaxTries` | backend/src/main/java/com/nckh/service/impl/OutfitMergeServiceImpl.java:52 | Between 1 and 20 status checks are made. |
| `OutfitMergeService.OnlyStatusesWait` | backend/src/main/java/com/nckh/service/impl/OutfitMergeServiceImpl.java:174-195 | Checks that threw or had a null body cause no 3 s wait. |
| `OutfitMergeService.AfterEnd` | backend/src/main/java/com/nckh/service/impl/OutfitMergeServiceImpl.java:169-196 | Giving up leaves the record as it was. Every other end sets the time and COMPLETED or FAILED. A record only becomes COMPLETED through a completed poll. |
| `OutfitMergeService.TimeoutOnlyOnLastThrow` | backend/src/main/java/com/nckh/service/impl/OutfitMergeServiceImpl.java:187-196 | With no terminal status, the timeout is recorded iff the 20th check threw. Otherwise the record stays as it was (PROCCESSING). |
| `OutfitMergeService.ProviderFailureDownloadsNothing` | backend/src/main/java/com/nckh/service/impl/OutfitMergeServiceImpl.java:183-185 | A provider FAILED status sets FAILED, whatever the download and upload would have answered. |
| `OutfitMergeService.HandleCompletedTask` | backend/src/main/java/com/nckh/service/impl/OutfitMergeServiceImpl.java:199-221 | The record becomes `AfterCompleted`. |
| `OutfitMergeService.HandleFailedTask` | backend/src/main/java/com/nckh/service/impl/OutfitMergeServiceImpl.java:254-258 | The record becomes `AfterFailed`. |
| `OutfitMergeService.HandleTaskTimeout` | backend/src/main/java/com/nckh/service/impl/OutfitMergeServiceImpl.java:260-264 | The record becomes `AfterTimeout`. |
| `OutfitMergeService.ProcessTask` | backend/src/main/java/com/nckh/service/impl/OutfitMergeServiceImpl.java:168-197 | The `for` loop with `continue`/`break` leaves the record as `AfterPoll`. It waits 3 s for each non-terminal status reply among the checks made. |
| `OutfitMergeService.MergeStopsWith` | backend/src/main/java/com/nckh/service/impl/OutfitMergeServiceImpl.java:64-78 | A failed or thrown task creation stops the merge before the images are saved. The merge proceeds iff creation succeeded, both images were saved and the task id is present. |
| `OutfitMergeService.MergeRecordAfter` | backend/src/main/java/com/nckh/service/impl/OutfitMergeServiceImpl.java:59-85 | Before task creation succeeds the record stays `NewMerge`. Afterwards it holds both input images. It stays PROCCESSING when polling gives up. |
| `OutfitMergeService.MergeReply` | backend/src/main/java/com/nckh/service/impl/OutfitMergeServiceImpl.java:59-85 | An early stop gives a FAILED response with its message. Otherwise the reply is built from the final record. |
| `OutfitMergeService.CreationFailureKeepsDraft` | backend/src/main/java/com/nckh/service/impl/OutfitMergeServiceImpl.java:67-69 | Failed creation leaves the record DRAFT without images, and returns FAILED with no job id. |
| `OutfitMergeService.CompletedMergeReturnsResult` | backend/src/main/java/com/nckh/service/impl/OutfitMergeServiceImpl.java:308-315 | A completed merge returns COMPLETED, its id and the result image URL. |
| `OutfitMergeService.Merge` | backend/src/main/java/com/nckh/service/impl/OutfitMergeServiceImpl.java:59-85 | An unknown user fails. Otherwise the reply is `MergeReply` and the new record is `MergeRecordAfter`. |
| `OutfitMergeService.PublicIds` | backend/src/main/java/com/nckh/service/impl/OutfitMergeServiceImpl.java:113-121 | Exactly the non-null public ids of the garment, model and result images (at most three). |
| `OutfitMergeService.IdOf` | backend/src/main/java/com/nckh/service/impl/OutfitMergeServiceImpl.java:114-120 | One image contributes its public id iff it and its id are non-null. |
| `OutfitMergeService.Delete` | backend/src/main/java/com/nckh/service/impl/OutfitMergeServiceImpl.java:109-132 | An unknown id gives "Outfit Merge not found: <id>". Otherwise the ids to delete are `PublicIds`. |

## Left out

- HTTP, Feign and SDK calls (Suno, MusicGen, FastAPI, FitRoom, KlangIO, the AI chat model, Cloudinary, MinIO, mail) are oracle values passed in. Request building and prompt text are not modelled.
- Concurrency is not modelled: thread pools, `CompletableFuture`, `orTimeout` and `@Async`.
  - `FaceSwapService.RunJob` models a job that runs to completion after registration, sequentially.
  - The `orTimeout` failure path is not modelled. In that path the exception handler records FAILED with the timeout exception's message.
- `Thread.sleep` is modelled as returned wait values (`waits`, `waitedMs`). An interrupt during the download wait is not modelled.
- Transactions and persistence are not modelled: rollback, repository queries and saves. The model states the field writes the code makes. Repository lookups are inputs (`Option` of the record).
- The `MediaFile` rows that uploads persist are not modelled; a stored upload is represented by its URL and public id.
- `MusicService.LineSeconds` computes ⌊3·syllables/7⌋ exactly. The source multiplies doubles (`0.5` and `60.0/70`), and rounding may in rare cases differ by one second.
- `LyricsService.CalculateRhymeCounts` returns the counts. The final `100.0 * rhymes / pairs` division is not modelled.
- `LyricsService.LyricsStore.RateLyrics` takes an `int` rating; the unboxing failure of a null `Integer` is not modelled.
- XML parsing and serialisation are not modelled, and neither is DOM node identity.
  - A score is an array of notes, and a note is a sequence of element trees compared by value.
  - The DOM `NOT_FOUND` failures of `removeChild`/`insertBefore` are modelled as errors. Changes made to earlier notes before such a failure stay, as in the code.
- `SheetService.AfterCallback` compares statuses case-insensitively over ASCII letters only.
- Several reads of the clock in one operation are collapsed into one `now`. Dates are rendered as a given text (`nowText`).
- Java `int` and `long` overflow is not modelled; counters and times are unbounded integers.
- `FaceSwapService.ExecuteAsyncProcessing` does not model a `transferTo` failure after its temp file was created. Such a file would also be left behind; the model treats a staging failure as happening before the file exists.
- The uploads of the original inputs that `processFaceSwap` performs are not modelled, and neither are its user lookup or its controller-facing wrapping.
- The `task.get()` failure branch of `getProcessingStatus` is not modelled. The future finishes normally through its exception handler, so that branch is only reached by interruption.
- Cloudinary file deletion after an outfit-merge delete is not modelled; `OutfitMergeService.Delete` returns the ids it would delete.
- The following are not modelled: `SheetService.delete`, `getSumaryInfo`, `getDetail`, the response mappers, and the outfit-merge list queries. They are repository reads and field mapping with no decision of their own.
- `addMultipleLyricsLines` is not modelled. It repeats `SheetService.AttachLyricsWithLineNumber` once per entry of a `HashMap`, whose iteration order Java leaves unspecified.
- The notes of a score are one list in document order. The per-measure `getElementsByTagName` walk is not modelled, and neither is the double visit of a note that sits under two nested measures.
- `JwtTokenProvider` and password encoding are not modelled; token validity is an input.
- Strings are sequences of Unicode scalar values. Java's `length()`, `substring`, `charAt` and `lastIndexOf` count UTF-16 code units, so for text with characters outside the Basic Multilingual Plane (emoji, for example) the two disagree.
  - `MinioService.ValidateBucketName` counts such a character once, where Java counts two. For example, "a" followed by an emoji is length 2 in the model (the length message) and length 3 in Java (the format message).
  - `LyricsService.CheckRhyme` compares the last two scalar values, where Java compares the last two code units.
  - Positions and lengths throughout `JavaText` are counted the same way.

## Findings

| source | as written | input that shows it | evidently intended | confidence | as-written member | corrected member |
|---|---|---|---|---|---|---|
| backend/src/main/java/com/nckh/service/impl/FaceSwapServiceImpl.java:481-491 | `createTempFiles` rethrows a temp-file `IOException` as a `RuntimeException`. The `catch (IOException e)` clean-up at lines 348-355 does not catch it, so the video file and the files created so far are never deleted. | A MULTI request with one source and one destination image, where creating the source image's temp file fails: the video's temp file is left behind. | Any staging failure deletes every temp file created for the request. | not executed | `FaceSwapService.ExecuteAsyncProcessing` (with `FaceSwapService.MultiStagingLeak`) | `FaceSwapService.ExecuteAsyncProcessingCleaning` |
