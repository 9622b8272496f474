# Batch yield bookkeeping, role checks, route guards and upload checks

This project models in Dafny the decision and record-keeping logic of a laboratory
information system front-end that tracks biosynthetic cannabinoid production batches:

- **Batch service.** `createBatch` checks that the THCA, CBDA and CBCA output
  percentages sum into the closed band [95, 105]. It then stores the batch as
  in-progress and runs `checkPeakYield`. That check marks the new batch as peak-yield
  when no other batch of the same enzyme has a higher total. `updateBatchStatus`
  rewrites one record's status, and `deleteBatch` removes a record.
  `calculateAverageYields` is the element-wise mean of a list of batches.
  The `batches` collection is the `batches` map field of the class
  `BatchServices.BatchService`. The pure rules it follows live in the modules
  `Batches` and `BatchAverages`.
- **Role hierarchy.** `hasRole`, `isAdmin` and `canPerformAction` use the rank
  table admin = 3, researcher = 2, lab_tech = 1 (module `AuthService`).
- **Route guards.** `roleGuard`, `adminGuard` and `researcherGuard` (module
  `RoleGuards`) and `authGuard` and `noAuthGuard` (module `AuthGuards`) each
  decide on the first user snapshot. The decision is to allow or to redirect to a
  fixed path.
- **Upload checks.** `validateFileType` matches a MIME type against an allow-list
  whose entries may end in the wildcard `/*`. `validateFileSize` compares a byte
  count with a limit in megabytes (module `FileUpload`).

Modelling choices:

- Percentages are exact `real`s.
- Dates are integers, and the creation time is a parameter of `CreateBatch`.
- Batch ids are natural numbers handed out by the counter `nextId`. This stands in
  for the database's generated document ids.
- The database read that `checkPeakYield` performs returns the current contents of
  the map.

## Model

| member | source | states |
|---|---|---|
| `AuthService.Rank` | src/app/core/services/auth.service.ts:132-136 | Ranks are 1 to 3; rank 3 is exactly admin and rank 1 exactly lab_tech |
| `AuthService.CanPerformAction` | src/app/core/services/auth.service.ts:129-139 | An absent user may do nothing; an admin may do everything; a lab_tech requirement admits every present user; an admin requirement admits exactly admins |
| `AuthService.HasRole` | src/app/core/services/auth.service.ts:113-115 | An absent user holds no role; a present user holds a role iff their rank equals that role's rank, so a higher rank does not count |
| `AuthService.IsAdmin` | src/app/core/services/auth.service.ts:120-122 | True iff the user is present and holds the top rank |
| `AuthService.RankIsInjective` | src/app/core/services/auth.service.ts:132-136 | Distinct roles have distinct ranks, ordered admin > researcher > lab_tech |
| `AuthService.CanPerformActionIsRankComparison` | src/app/core/services/auth.service.ts:138 | For a present user, permission holds iff the user's rank is at least the required rank |
| `AuthService.AbsentUserMayDoNothing` | src/app/core/services/auth.service.ts:130 | `canPerformAction(null, r)` is false for every role |
| `AuthService.OwnRoleAllowed` | src/app/core/services/auth.service.ts:138 | Reflexivity: every present user may perform the actions of their own role |
| `AuthService.LowerRequirementAllowed` | src/app/core/services/auth.service.ts:132-138 | Monotonicity: permission for a role implies permission for every role of lower or equal rank |
| `AuthService.LabTechOnlyLabTechActions` | src/app/core/services/auth.service.ts:132-138 | A lab technician may perform an action iff it requires only lab_tech |
| `AuthService.HasRoleIsExactEquality` | src/app/core/services/auth.service.ts:113-122 | `hasRole` is false for an absent user and is exact role equality otherwise; `isAdmin` equals `hasRole(_, ADMIN)`; holding a non-admin role excludes `isAdmin` |
| `AuthService.HasRoleImpliesCanPerform` | src/app/core/services/auth.service.ts:113-139 | Holding a role grants the actions that require it |
| `AuthService.AdminMayDoEverything` | src/app/core/services/auth.service.ts:120-139 | `isAdmin(u)` implies `canPerformAction(u, r)` for every role r |
| `Navigation.TakeFirst` | src/app/core/guards/role.guard.ts:16-18 | With `take(1)`, a stream yields no decision iff it is empty, and otherwise yields the decision on its first snapshot |
| `Navigation.LaterSnapshotsIgnored` | src/app/core/guards/role.guard.ts:16-18 | Appending snapshots after the first never changes a guard's decision |
| `RoleGuards.RoleGuard` | src/app/core/guards/role.guard.ts:19-22 | Allows iff the user is present and their rank is at least the required rank; otherwise redirects to `/unauthorized` |
| `RoleGuards.AdminGuard` | src/app/core/guards/role.guard.ts:31 | Allows exactly admin users; everyone else is redirected to `/unauthorized` |
| `RoleGuards.ResearcherGuard` | src/app/core/guards/role.guard.ts:36 | Allows exactly researchers and admins; everyone else, an absent user included, is redirected to `/unauthorized` |
| `RoleGuards.RoleGuardOnStream` | src/app/core/guards/role.guard.ts:11-25 | On a profile stream, the guard decides only on the first snapshot, and gives no decision on an empty stream |
| `RoleGuards.RoleGuardAgreesWithCanPerformAction` | src/app/core/guards/role.guard.ts:19-20 | The guard allows iff `canPerformAction(user, requiredRole)` holds |
| `RoleGuards.RoleGuardMonotone` | src/app/core/guards/role.guard.ts:19-20 | A user admitted by the guard for a role is admitted by the guard for every lower-ranked role |
| `RoleGuards.RoleGuardDecidesOnFirstSnapshot` | src/app/core/guards/role.guard.ts:16-18 | Profile snapshots after the first never change the guard's decision |
| `AuthGuards.AuthGuard` | src/app/core/guards/auth.guard.ts:13-20 | Allows iff a signed-in account is present; otherwise redirects to `/auth/login` |
| `AuthGuards.NoAuthGuard` | src/app/core/guards/auth.guard.ts:31-38 | Allows iff no account is signed in; otherwise redirects to `/dashboard` |
| `AuthGuards.AuthGuardOnStream` | src/app/core/guards/auth.guard.ts:9-22 | `authGuard` on the account stream decides on the first snapshot only |
| `AuthGuards.NoAuthGuardOnStream` | src/app/core/guards/auth.guard.ts:27-40 | `noAuthGuard` on the account stream decides on the first snapshot only |
| `AuthGuards.ExactlyOneAuthGuardAllows` | src/app/core/guards/auth.guard.ts:9-40 | For every snapshot, exactly one of `authGuard` and `noAuthGuard` allows |
| `AuthGuards.AuthGuardsDecideOnFirstSnapshot` | src/app/core/guards/auth.guard.ts:14-32 | Snapshots after the first change neither guard's decision |
| `FileUpload.IndexOf` | src/app/core/services/file-upload.service.ts:110 | The position found is an occurrence of the pattern, and no occurrence lies before it; no result means no occurrence at all |
| `FileUpload.ReplaceFirst` | src/app/core/services/file-upload.service.ts:110 | String `replace` leaves a string without the pattern unchanged; otherwise the result is the string with its first occurrence of the pattern, and only that one, replaced |
| `FileUpload.EntryMatches` | src/app/core/services/file-upload.service.ts:108-113 | An entry not ending in `/*` accepts exactly the type equal to it; an entry ending in `/*` accepts exactly the types that start with the entry with its first `/*` cut out |
| `FileUpload.FirstMarkerCut` | src/app/core/services/file-upload.service.ts:109-110 | An entry ending in `/*` contains a first `/*`, and `replace('/*', '')` cuts out exactly that one |
| `FileUpload.ValidateFileType` | src/app/core/services/file-upload.service.ts:107-114 | Accepts iff some entry of the allow-list matches; an empty allow-list accepts nothing |
| `FileUpload.ExactEntryMatchesOnlyItself` | src/app/core/services/file-upload.service.ts:112 | An entry not ending in `/*` matches only the type equal to it |
| `FileUpload.WildcardEntryMatchesByPrefix` | src/app/core/services/file-upload.service.ts:109-110 | An entry `base/*` with no slash in `base` matches exactly the types starting with `base`, with no slash required after it |
| `FileUpload.ImageWildcardNeedsNoSlash` | src/app/core/services/file-upload.service.ts:109-110 | `image/*` matches `imagery`, and does not match `text/plain` |
| `FileUpload.StarSlashStarMatchesOnlyStarTypes` | src/app/core/services/file-upload.service.ts:109-110 | `*/*` matches a type iff the type starts with `*` |
| `FileUpload.OnlyFirstMarkerRemoved` | src/app/core/services/file-upload.service.ts:110 | Only the first `/*` is removed: `a/*b/*` yields the prefix `ab/*` |
| `FileUpload.AllowListGrowthKeepsAcceptance` | src/app/core/services/file-upload.service.ts:108 | Adding entries to the allow-list never turns an accepted file into a rejected one |
| `FileUpload.ValidateFileSize` | src/app/core/services/file-upload.service.ts:122-125 | Accepts iff the size in megabytes (bytes divided by 1024·1024) is at most the limit; a negative limit accepts nothing |
| `FileUpload.FileSizeLimitIsInclusive` | src/app/core/services/file-upload.service.ts:122-125 | A file of exactly `m`·1024·1024 bytes passes a limit of `m` MB, and one byte more fails |
| `FileUpload.FileSizeMonotone` | src/app/core/services/file-upload.service.ts:122-125 | A smaller file under a larger limit passes whenever the original pair passes |
| `FileUpload.DefaultAcceptRejectsOrdinaryTypes` | src/app/shared/components/file-upload/file-upload.component.ts:115 | As written, the upload widget's default allow-list `*/*` rejects `image/png` |
| `FileUpload.ValidateFileTypeIntended` | src/app/core/services/file-upload.service.ts:107-114 | The corrected check accepts iff some entry matches under the intended rule |
| `FileUpload.IntendedRuleFixesAnyType` | src/app/shared/components/file-upload/file-upload.component.ts:115-119 | Under the intended rule, a list holding `*/*` accepts every type, including `image/png` for the default list; a list without it behaves as written |
| `Batches.ValidateOutputs` | src/app/core/services/batch.service.ts:91-94 | No error iff the output total lies in the closed band [95, 105]; the error carries the computed total |
| `Batches.ValidationBandIsClosed` | src/app/core/services/batch.service.ts:91-94 | Totals of exactly 95 and 105 are accepted; 94.99 and 105.01 are rejected with their totals |
| `Batches.IsPeak` | src/app/core/services/batch.service.ts:144-160 | Holds iff every stored batch of the enzyme whose id differs from the batch's own has a total no higher than the current total; with no batch of the enzyme it holds |
| `Batches.SetStatus` | src/app/core/services/batch.service.ts:119-122 | Fails with not-found iff the id is absent; otherwise keeps the same ids, gives the record the new status, and changes no other field and no other record |
| `Batches.ClassifyPeak` | src/app/core/services/batch.service.ts:155-164 | Fails only when the test passes and the record is missing; otherwise keeps the same ids and other records, changes no field but the status, and the record is peak-yield iff the test passed or it already was |
| `Batches.AfterCreate` | src/app/core/services/batch.service.ts:108-111 | The store gains exactly the new id, every other record is unchanged, and the new record is the given batch, possibly with status peak-yield |
| `Batches.PeakTestMatchesReference` | src/app/core/services/batch.service.ts:141-160 | With the new batch inserted, the `every` test skipping its own id holds iff its total is at least that of every other stored batch of the same enzyme; ties count as peak |
| `Batches.CreationOutcome` | src/app/core/services/batch.service.ts:96-111 | A creation adds exactly one record under the fresh id and leaves every earlier record, earlier peaks included, unchanged. The new record is the given batch, whose status becomes peak-yield iff it tops its enzyme |
| `Batches.NewPeakIsMaximal` | src/app/core/services/batch.service.ts:155-164 | A batch classified peak has the highest total of all batches of its enzyme after creation |
| `Batches.FirstBatchOfEnzymeIsPeak` | src/app/core/services/batch.service.ts:156-163 | A batch that is alone for its enzyme is classified peak |
| `Batches.OtherEnzymesDoNotMatter` | src/app/core/services/batch.service.ts:144-147 | Stores that agree on one enzyme's batches give the same peak decision for that enzyme |
| `Batches.CreationKeepsPeaksCovering` | src/app/core/services/batch.service.ts:108-111 | If every batch is matched or beaten by a peak batch of its own enzyme, this still holds after a creation; peaks are never demoted |
| `Batches.CoverageSurvivesInsertion` | src/app/core/services/batch.service.ts:156-164 | Map-level step: inserting a record that becomes a peak when it tops its enzyme, and leaving the rest unchanged, keeps every batch covered by a peak |
| `Batches.EmptyStoreIsCovered` | src/app/core/services/batch.service.ts:136-166 | An empty collection satisfies the peak-coverage invariant |
| `Batches.PeakYieldCount` | src/app/features/yield-tracker/yield-tracker.component.ts:186 | The peak counter is the number of occurrences of peak-yield among the batches' statuses; it is at most the number of batches, and zero iff no batch is peak-yield |
| `Batches.PeakYieldCountOfConcat` | src/app/features/yield-tracker/yield-tracker.component.ts:186 | The count over two concatenated lists is the sum of their counts |
| `BatchAverages.CalculateAverageYields` | src/app/core/services/batch.service.ts:171-190 | Empty input gives all zeros; otherwise each component times the count equals the sum of that component over the batches |
| `BatchAverages.SumOutputs` | src/app/core/services/batch.service.ts:176-183 | The `reduce` of a single batch is that batch's outputs, since the zero start adds nothing |
| `BatchAverages.SumProjects` | src/app/core/services/batch.service.ts:176-183 | Each component of the `reduce` sum is the plain sum of that component over the batches |
| `BatchAverages.SumOfConcat` | src/app/core/services/batch.service.ts:176-183 | The `reduce` sum of two concatenated lists is the sum of their sums |
| `BatchAverages.SumIgnoresOrder` | src/app/core/services/batch.service.ts:176-183 | Any two lists with the same batches, in any order, have the same `reduce` sum |
| `BatchAverages.AveragesIgnoreOrder` | src/app/core/services/batch.service.ts:171-190 | Averages do not depend on the order of the batches |
| `BatchAverages.SumOfIdentical` | src/app/core/services/batch.service.ts:176-183 | The sum of `n` batches with equal outputs is `n` times those outputs |
| `BatchAverages.AverageOfIdenticalOutputs` | src/app/core/services/batch.service.ts:176-189 | The average of a non-empty list of batches with identical outputs equals those outputs |
| `BatchAverages.AveragesWithinBounds` | src/app/core/services/batch.service.ts:185-189 | If every output of every batch lies in [lo, hi], so does every average; with the form bounds [0, 100], averages are percentages |
| `BatchServices.BatchService.constructor` | src/app/core/services/batch.service.ts:26-28 | Starts with an empty `batches` collection |
| `BatchServices.BatchService.CreateBatch` | src/app/core/services/batch.service.ts:81-114 | Fails iff the total is outside [95, 105], with the total in the error and the store untouched. On success, returns an id not in the old store, and the new store is the old one plus the in-progress record with the given fields, classified |
| `BatchServices.BatchService.CheckPeakYield` | src/app/core/services/batch.service.ts:136-166 | The store becomes the batch's peak classification of the old store; a missing record under a peak decision is an error and leaves the store unchanged |
| `BatchServices.BatchService.UpdateBatchStatus` | src/app/core/services/batch.service.ts:119-122 | Changes only the status field of the one existing record; a missing record is an error that leaves the store unchanged |
| `BatchServices.BatchService.DeleteBatch` | src/app/core/services/batch.service.ts:127-130 | Removes exactly the record with that id, if present, and leaves every other record unchanged |

## Findings

| source | as written | input that shows it | evidently intended | confidence | as-written member | corrected member |
|---|---|---|---|---|---|---|
| src/app/core/services/file-upload.service.ts:109-110 | `*/*` minus its first `/*` leaves the prefix `*`, so `*/*` matches only types starting with `*` | the upload widget's default `accept = '*/*'` with the label "Any file type" (src/app/shared/components/file-upload/file-upload.component.ts:115-119) rejects a file of type `image/png` | `*/*` matches every file type | high; not executed | `FileUpload.DefaultAcceptRejectsOrdinaryTypes` | `FileUpload.IntendedRuleFixesAnyType` |

The main model keeps the rule as written (`FileUpload.ValidateFileType`). The corrected
`FileUpload.ValidateFileTypeIntended` sits beside it. It differs only on the entry `*/*`.

## Left out

- Document database and object storage calls (`addDoc`, `updateDoc`, `deleteDoc`, `collectionData`, `docData`, uploads, download URLs, deletes) are replaced by the in-memory map. Network and permission errors are not modelled.
- `FileUpload.ReplaceFirst` does not expand replacement patterns such as `$&` or `$$` in the replacement string, as JavaScript's `replace` does. The only replacement used is the empty string, which holds none.
- `uploadFile`, `uploadFileAndGetUrl`, `deleteFile` and `formatFileSize` are left out. They are storage calls or floating-point formatting.
- The read queries `getAllBatches`, `getBatchesByEnzyme`, `getBatchesByLabTech` and `getBatch` are left out, and so is their ordering by timestamp. Only the enzyme filter used by the peak check (`Batches.BatchesByEnzyme`) is modelled.
- `convertTimestamps` is left out. It is a library conversion of timestamps.
- The read-classify-write race between concurrent `createBatch` calls is left out. The peak check reads the store as the same call left it.
- `checkPeakYield` awaits `toPromise()` on a live query (src/app/core/services/batch.service.ts:149-151). That promise may never settle, because a live query does not complete. Then the `every` test is never reached, `createBatch` never returns, and no batch is marked peak-yield on this path. The model assumes instead that the read settles with the current contents of the store. So `BatchServices.BatchService.CreateBatch` always classifies and always returns.
- The case where the query settles with no value (`if (!batches) return;`) is left out as well.
- Firebase Auth sign-in, registration, sign-out and the profile stream are left out as network calls. Guards receive the snapshots as sequences.
- Guard results on an empty stream are `None`. What the router does then is router behaviour outside this repository.
- Role values outside the three known roles are not representable, so `canPerformAction` with an unknown stored role is not modelled. In JavaScript it would compare `undefined` and return false.
- Percentages are exact reals. JavaScript doubles, their rounding and `NaN` are not modelled. A `NaN` total would pass validation in JavaScript.
- `BatchServices.BatchService.CreateBatch` does not require the form bounds (CBGA input at least 0, each output in [0, 100]). `createBatch` itself never checks them. They appear only as hypotheses of `BatchAverages.AveragesWithinBounds`.
- Batch statuses follow the code, not the narrower lifecycle described for the system. `updateBatchStatus` accepts any status for any record. So an explicit update can demote a peak, and the coverage invariant of `Batches.CreationKeepsPeaksCovering` is stated for creation only.
- Component templates, the chart, the dashboard, the enzyme and organism stub services, the seed scripts and the route table are not part of this model.
