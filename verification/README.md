# mutecloud request handlers, modelled in Dafny

The mutecloud backend serves a music catalog (songs, albums, genres, artists)
over a REST API. Users can rate songs, recommend catalog items to one
another, and keep playlists. This project models the request handlers of
`mutecloud/views.py` over the schema of `mutecloud/models.py`. Each handler is
a pure transition on one immutable store:

- songs: id → (album, rating, reviewers)
- albums: id → (rating, reviewers)
- genres, artists and users: sets of ids
- playlists: id → (owner, name, set of song ids), plus the playlist id sequence
- recommendations: a sequence of (sender, recipient, four optional targets), oldest first

Files:

- `models.dfy` (module `Models`): ids, the `Score` choices, the entity records and their defaults.
- `rating.dfy` (module `Rating`): Python floor division, one running-mean step, and replaying a rating history.
- `membership.dfy` (module `Membership`): playlist membership edits as set algebra, plus the removal loop.
- `views.dfy` (module `Views`): the store, each action, and the `Handle` dispatcher.
- `properties.dfy` (module `Properties`): the store invariant and the lemmas about whole requests.

Every handler runs as one atomic step. A failing handler (`Err`) leaves the
store as it was, which `Handle` states. The caller is a parameter: the
authenticated user. Playlist edits take no caller at all, because the
source looks playlists up among all playlists and never checks the owner.

Behaviours of the code that the model keeps:

- Ids that name no song are dropped at creation, addition and removal, because each of these actions first filters the ids through the song table. In a valid store, removal is therefore plain set difference with the requested ids (`Properties.RemoveSongsIsDifference`).
- A new recommendation stays out of the sender's inbox only when the sender is not also the recipient.
- `views.py` has no search action.
- A stored reviewer count is not assumed to be non-negative. A count of -1 makes the division fail, and that error is modelled. Counts of -2 and below divide by a negative number, and Python's floor division is modelled for that case too.
- The running mean loses more than rounding. The stored rating stands in for the sum of the earlier scores, so the loss builds up with every step and is not bounded by one over the number of reviewers. Once five scores are recorded (so from the sixth score on), no score in 0..5 raises a non-negative rating. Five scores of 0 keep a song at 0 however many 5s follow (`Rating.FiveZerosFreezeRating`).

## Model

| member | source | states |
|---|---|---|
| Models.ScoreOf | mutecloud/models.py:19-25 | a stored integer is a score choice exactly when it is in 0..5, and then it decodes to the score with that value |
| Models.ScoreValue | mutecloud/models.py:19-25 | the integer stored for every score is in 0..5 |
| Models.ScoreRoundTrip | mutecloud/models.py:40-46 | decoding the stored value of every score gives that score back |
| Models.ScoreDistinct | mutecloud/migrations/0009_auto_20201026_1611.py:21 | distinct scores have distinct stored values and distinct labels (Unrated, Flop, Fade, Average, Classic, All Time) |
| Models.TargetCount | mutecloud/models.py:85-96 | counts the set targets of a recommendation: at most four, and zero exactly when all four are null |
| Models.SchemaDoesNotForceOneTarget | mutecloud/models.py:81-96 | the schema admits recommendations with no target and with two targets |
| Models.NewAlbum | mutecloud/models.py:28-29 | a new album is Unrated with 0 reviewers |
| Models.NewSong | mutecloud/models.py:48-51 | a new song belongs to the given album, is Unrated and has 0 reviewers |
| Rating.FloorDiv | mutecloud/views.py:57 | Python `//`: for either sign of divisor the result is the floor of the exact quotient |
| Rating.FloorDivPositive | mutecloud/views.py:56-57 | with a positive divisor, Python `//` agrees with Dafny's `/` |
| Rating.MeanStep | mutecloud/views.py:55-58 | the new rating r is the floor of (rating·n + score)/(n+1) for either sign of n+1: (n+1)·r ≤ rating·n + score < (n+1)·(r+1) when n+1 > 0, and the mirrored bounds when n+1 < 0 |
| Rating.MeanStepBetween | mutecloud/views.py:55-58 | with n ≥ 0 the new rating lies between the old rating and the submitted score |
| Rating.MeanStepBound | mutecloud/views.py:55-58 | with the old rating and the score both in 0..5 and n ≥ 0, the new rating is in 0..5 |
| Rating.MeanStepSameScore | mutecloud/views.py:55-58 | submitting the current rating again leaves the rating unchanged, for every reviewer count except -1 (either sign of n+1) |
| Rating.Replay | mutecloud/views.py:54-59 | after k scores on a fresh song, the reviewer count is k |
| Rating.ReplayNeverExceedsMean | mutecloud/views.py:55-57 | floor division only rounds down: after any history, rating·reviewers ≤ the sum of the submitted scores |
| Rating.MeanStepRiseNeedsLargeScore | mutecloud/views.py:55-58 | with n ≥ 0, a step raises the rating only if score ≥ rating + n + 1 |
| Rating.MeanStepNoRiseLate | mutecloud/views.py:55-58 | once five scores are recorded (from the sixth score on), no score ≤ 5 raises a non-negative rating |
| Rating.ZerosKeepRatingZero | mutecloud/views.py:55-59 | any number of 0 scores on a fresh song keeps its rating at 0 |
| Rating.FiveZerosFreezeRating | mutecloud/views.py:55-59 | after five 0 scores, any number k of 5s leaves the rating at 0 while the scores sum to 5k |
| Rating.ReplayBound | mutecloud/views.py:54-59 | a history of scores all in 0..5 keeps the rating in 0..5 |
| Membership.Existing | mutecloud/views.py:249-250 | an id is selected exactly when the request names it and it is a song |
| Membership.Add | mutecloud/views.py:296-299 | new members = old members ∪ requested ids that are songs; nothing else is added |
| Membership.Remove | mutecloud/views.py:271-275 | new members = old members minus the requested ids that are songs; nothing else is removed |
| Membership.RemoveEach | mutecloud/views.py:274-275 | removing the songs one at a time in a loop gives the same set as `Membership.Remove` |
| Membership.AddIdempotent | mutecloud/views.py:299 | adding the same ids twice gives the same set as adding them once |
| Membership.RemoveNonMembers | mutecloud/views.py:274-275 | removing ids none of which are members leaves the membership unchanged |
| Membership.RemoveIsDifference | mutecloud/views.py:271-275 | when all members are songs, removal is set difference with the requested ids |
| Views.Lookup | mutecloud/views.py:52 | a primary-key lookup succeeds exactly when the row exists, returns that row, and otherwise fails with DoesNotExist |
| Views.RateSong | mutecloud/views.py:49-68 | missing song gives DoesNotExist; GET returns the song and leaves the store unchanged; PUT on an existing song succeeds exactly when reviewers ≠ -1 and otherwise fails with ZeroDivision; a successful PUT sets reviewers to n+1 and rating to the floor of (rating·n + score)/(n+1) for either sign of n+1, keeps the album, and changes no other row |
| Views.RecordFor | mutecloud/views.py:78-81 | the stored recommendation has the caller as sender, the given recipient, and exactly the addressed target set |
| Views.Recommend | mutecloud/views.py:70-228 | succeeds exactly when the target and the recipient exist (else DoesNotExist); appends exactly one recommendation from the caller and returns the target unchanged |
| Views.Inbox | mutecloud/views.py:98-100 | lists only recommendations for the caller, each one as often as it is stored |
| Views.ListPlaylists | mutecloud/views.py:236-237 | returns exactly the caller's playlists, with their stored contents |
| Views.CreatePlaylist | mutecloud/views.py:247-262 | makes a playlist under an unused id, owned by the caller, holding exactly the requested ids that are songs; no other row changes |
| Views.AddSongs | mutecloud/views.py:289-311 | missing playlist gives DoesNotExist whoever the owner is; GET changes nothing; PUT keeps owner and name, unites the members with the requested songs, and touches no other row |
| Views.RemoveSongs | mutecloud/views.py:264-287 | missing playlist gives DoesNotExist; GET changes nothing; PUT keeps owner and name, removes the requested songs, and touches no other row |
| Views.Handle | mutecloud/views.py:32-311 | a failed or read-only modelled request leaves the store unchanged; no modelled request changes the catalog or the users, moves a song to another album, or lowers a reviewer count |
| Properties.EmptyStoreValid | mutecloud/models.py:38-96 | the empty store satisfies the store invariant |
| Properties.NewSongKeepsValid | mutecloud/models.py:48-51 | adding a default song in an existing album keeps the store valid and its ratings in range |
| Properties.HandlePreservesValid | mutecloud/views.py:49-311 | every request keeps songs in existing albums, reviewer counts non-negative, playlists owned by users and holding songs, and recommendations pointing at existing rows |
| Properties.ValidRatingNeverDividesByZero | mutecloud/views.py:49-60 | in a valid store, rating never fails with division by zero, and a GET or a PUT of any score on an existing song always succeeds |
| Properties.RatingsStayInRange | mutecloud/views.py:54-60 | if every submitted score is a score choice, every stored rating stays one |
| Properties.UncheckedScoreIsStored | mutecloud/views.py:55-58 | the score is not range-checked: rating a fresh song with 100 stores rating 100 |
| Properties.HandlePreservesSingleTargets | mutecloud/views.py:76-81 | every modelled request creates only recommendations with exactly one target |
| Properties.CatalogWritesRejected | mutecloud/views.py:37-47 | create, update, partial update and destroy on the catalog fail with MethodNotAllowed and change nothing |
| Properties.CatalogReadsAccepted | mutecloud/views.py:32-35 | reading a catalog row succeeds exactly when it exists, and never changes the store |
| Properties.RecommendationReachesRecipient | mutecloud/views.py:98-100 | a new recommendation is listed first for its recipient; every other user's listing, the sender's included, is unchanged |
| Properties.CreatedPlaylistListedForOwner | mutecloud/views.py:236-254 | a created playlist joins its owner's listing and no other user's |
| Properties.CreateCollapsesDuplicates | mutecloud/views.py:249-254 | creating with songs [1, 2, 2] gives the members {1, 2} |
| Properties.AddSongsIdempotent | mutecloud/views.py:295-299 | repeating an add-song PUT returns the same playlist and store |
| Properties.RemoveNonMembersNoOp | mutecloud/views.py:270-277 | a remove-song PUT naming no members leaves the store unchanged |
| Properties.RemoveSongsIsDifference | mutecloud/views.py:270-275 | in a valid store, removal gives the old members minus the requested ids |
| Properties.PlaylistEditsIgnoreCaller | mutecloud/views.py:264-299 | add-song and remove-song give the same result whoever calls, because ownership is not checked |

## Left out

- HTTP status codes: only success versus failure is modelled. The 200/201/202 distinctions and routing are framework plumbing.
- Request parsing: a missing key in the request body, or a string where a number is expected, raises an error (a string score raises TypeError in the rating handler itself). These errors are not modelled.
- Fractional scores: scores are modelled as integers only. A JSON score such as 4.5 is floor-divided as a float, and the integer column truncates the result on save. This is not modelled.
- Inherited endpoints of the playlist and recommendation viewsets: both are full model viewsets that override only listing (and creation, for playlists). The framework's retrieve, update, partial update and destroy stay live. Through them any authenticated user can re-own, rename, refill or delete any playlist, and can edit a recommendation's sender and target links, for instance giving it two targets. The recommendation viewset's inherited create is live too. Its serializer leaves out the required recipient, so it appears unable to insert a row. These endpoints are not modelled, so `Views.Handle` and `Properties.HandlePreservesSingleTargets` speak only of the modelled requests.
- Recommend actions answering GET: the router allows only PUT, so the framework rejects GET before the handler runs. The handler's non-PUT branch is dead and not modelled.
- Serialization: the hyperlinked JSON rendering is done by a library outside this repository.
- Transactions and concurrency: each request is treated as one atomic step.
- Authentication: the caller is a parameter and is assumed to be a registered user (`Properties.HandlePreservesValid` requires this).
- `UserViewSet` and the catalog list endpoints: their behaviour comes entirely from the framework. A single-row read (`Views.Lookup`) stands in for catalog retrieval. `UserViewSet` is a full model viewset guarded only by authentication, so any authenticated user can create, edit or delete any user. Deletion cascades as described under cascade deletes. None of this is modelled.
- Dates: `released_on`, `created_on` and `recommended_on` come from the clock.
- Names and lengths: song, album, genre and artist names and lengths, and the many-to-many genre and artist links, are not read by any action.
- Orderings: playlist and catalog listings are ordered by the database. The recommendation listing is modelled newest first, following its descending-id ordering.
- Cascade deletes: no API path deletes albums or songs. The framework's user endpoints can delete a user, and that cascades to the user's playlists and to every recommendation the user sent or received. This is not modelled: `Views.Handle` keeps the user set fixed.
- Full-text search: there is no search action in `views.py`.
- Views.CreatePlaylist: requires every existing playlist id to be below the next value of the id sequence. This is the database's guarantee that new ids are fresh.
- Views.RateSong: does not model the database's 32-bit integer column limit on rating and reviewers. Python integers are unbounded, and overflow would be a storage error.
