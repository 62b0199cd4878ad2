# EduNova dashboards — a Dafny model

EduNova is a browser-only prototype of an education marketplace with three roles:

- Educators author courses.
- Marketers bundle and promote courses.
- Students enroll in courses and buy bundles.

Everything it keeps lives in React state or in the browser's `localStorage`. This project models the logic of that prototype in Dafny and proves properties of it:

- the in-memory course and bundle catalogues (`useCourses`, `useBundles`);
- the purchases context, with its per-user storage keys and load/save effects;
- the reviews context and the review form;
- simulated authentication against a user list in local storage, and the demo-data seeder;
- the course-authoring dialog;
- the collaborator dashboard and the collaborate page;
- the role-filtered sidebar;
- the AI-suggestions page;
- the chatbot context and the chatbot sidebar;
- the search filters of the course, bundle, student and teacher pages.

Each source file is one module. State that the source updates in place becomes a `class` with `seq` fields, and its methods say exactly what the new state is. The pure parts are functions and lemmas. Shared modules:

- `Wrappers`: `Option`, and `Result` for thrown errors.
- `Seqs`: `filter`, `find`, `some` and a conditional `map` over sequences.
- `Text`: ASCII `toLowerCase`/`toUpperCase`, `includes`, `trim`, `String(n)`, `split`/`join`.
- `Domain`: the record types.
- `Storage`: `localStorage` as a class holding a `map` from keys to stored values.

A stored value is a `Stored`:

- a course list, a bundle list, a user list or a user record;
- or `Text(t)`, a string that does not parse as the expected shape.

A key counts as falsy when it is absent or holds the empty string.

Clock readings (`Date.now()`, `toISOString()`), object URLs and `parseFloat` results are method parameters.

Notes on the code's behaviour:

- `addReview` appends a review; it does not replace the user's earlier review of the course.
- The catalogues live only in hook state and start from the hook's mock lists every time.
- New course and bundle ids are `String(length + 1)`, not timestamps.
- No average-rating helper exists in the reviews context.

## Model

| member | source | states |
|---|---|---|
| CourseCatalog.CourseRepository.constructor | src/hooks/useCourses.ts:67-69 | the hook starts with the six mock courses and not loading |
| CourseCatalog.CourseRepository.GetCourses | src/hooks/useCourses.ts:71-77 | returns the current list unchanged; loading ends false |
| CourseCatalog.FindCourse | src/hooks/useCourses.ts:84 | None exactly when no course has the id; otherwise the first course carrying it |
| CourseCatalog.CourseRepository.GetCourseById | src/hooks/useCourses.ts:79-85 | returns the first course with the id, None when there is none; the list is unchanged |
| CourseCatalog.NewCourse | src/hooks/useCourses.ts:90-94 | the new course carries every draft field, 0 students and the id String(count + 1) |
| CourseCatalog.CourseRepository.CreateCourse | src/hooks/useCourses.ts:87-98 | appends exactly the new course numbered after the old length and returns it |
| CourseCatalog.UpdateCourses | src/hooks/useCourses.ts:103-107 | same length; each course with the id becomes its merge with the patch, every other course is untouched |
| CourseCatalog.Merge | src/hooks/useCourses.ts:105 | the spread merge: each field present in the patch overrides the course's, each absent field keeps it |
| CourseCatalog.CourseRepository.UpdateCourse | src/hooks/useCourses.ts:100-109 | the list becomes the patched list; an unknown id changes nothing and raises no error |
| CourseCatalog.DeleteCourses | src/hooks/useCourses.ts:114 | keeps exactly the courses without the id, in their order, each as many times as it occurred; no copy of a course with the id remains |
| CourseCatalog.CourseRepository.DeleteCourse | src/hooks/useCourses.ts:111-116 | the list becomes the filtered list |
| CourseCatalog.MergeLaws | src/hooks/useCourses.ts:105 | an empty patch changes nothing; merging a patch twice equals merging it once |
| CourseCatalog.MockCoursesPositional | src/hooks/useCourses.ts:4-65 | the mock courses carry the ids '1' to '6' in order |
| CourseCatalog.CreateFreshWhilePositional | src/hooks/useCourses.ts:90-95 | while ids are positional, a created course gets an unused id, is found by it afterwards, and ids stay positional |
| CourseCatalog.CreateAfterDeleteDuplicatesId | src/hooks/useCourses.ts:87-116 | after deleting course '1', the next course created gets id '6', which the last mock course already has |
| CourseCatalog.UpdateThenFind | src/hooks/useCourses.ts:100-107 | after an update that keeps the id, the course found by the id is the old one merged with the patch |
| CourseCatalog.DeleteThenFind | src/hooks/useCourses.ts:111-116 | after a delete no course has the id, and every other id is found exactly when it was before |
| BundleCatalog.BundleRepository.constructor | src/hooks/useBundles.ts:52-54 | the hook starts with the five mock bundles and not loading |
| BundleCatalog.BundleRepository.GetBundles | src/hooks/useBundles.ts:56-61 | returns the current list unchanged |
| BundleCatalog.FindBundle | src/hooks/useBundles.ts:67 | None exactly when no bundle has the id; otherwise the first bundle carrying it |
| BundleCatalog.BundleRepository.GetBundleById | src/hooks/useBundles.ts:63-68 | returns the first bundle with the id, None when absent |
| BundleCatalog.NewBundle | src/hooks/useBundles.ts:73-76 | the new bundle carries every draft field and the id String(count + 1) |
| BundleCatalog.BundleRepository.CreateBundle | src/hooks/useBundles.ts:70-80 | appends exactly the new bundle numbered after the old length and returns it |
| BundleCatalog.UpdateBundles | src/hooks/useBundles.ts:85-89 | same length; bundles with the id are merged with the patch, the others untouched |
| BundleCatalog.Merge | src/hooks/useBundles.ts:87 | the spread merge: each field present in the patch overrides the bundle's, each absent field keeps it |
| BundleCatalog.BundleRepository.UpdateBundle | src/hooks/useBundles.ts:82-91 | the list becomes the patched list |
| BundleCatalog.DeleteBundles | src/hooks/useBundles.ts:96 | keeps exactly the bundles without the id, in order, each as many times as it occurred; no copy of a bundle with the id remains |
| BundleCatalog.BundleRepository.DeleteBundle | src/hooks/useBundles.ts:93-98 | the list becomes the filtered list |
| BundleCatalog.MergeLaws | src/hooks/useBundles.ts:87 | an empty patch changes nothing; merging twice equals merging once |
| BundleCatalog.MockBundlesPositional | src/hooks/useBundles.ts:4-50 | the mock bundles carry the ids '1' to '5' in order |
| BundleCatalog.CreateFreshWhilePositional | src/hooks/useBundles.ts:73-77 | while ids are positional, a created bundle gets an unused id, is found by it, and ids stay positional |
| BundleCatalog.UpdateThenFind | src/hooks/useBundles.ts:82-89 | after an update that keeps the id, the bundle found by the id is the old one merged with the patch |
| Purchases.IsEnrolled | src/contexts/PurchasesContext.tsx:87-89 | true exactly when some enrolled course has the id |
| Purchases.IsBundlePurchased | src/contexts/PurchasesContext.tsx:91-93 | true exactly when some purchased bundle has the id |
| Purchases.Enroll | src/contexts/PurchasesContext.tsx:75-79 | the course's id is enrolled afterwards; an enrolled id leaves the list as it was, otherwise the course is appended; no other id changes |
| Purchases.Purchase | src/contexts/PurchasesContext.tsx:81-85 | the same for bundles |
| Purchases.EnrollIdempotent | src/contexts/PurchasesContext.tsx:75-79 | enrolling twice in a course equals enrolling once |
| Purchases.PurchaseIdempotent | src/contexts/PurchasesContext.tsx:81-85 | purchasing a bundle twice equals purchasing it once |
| Purchases.EnrollKeepsIdsDistinct | src/contexts/PurchasesContext.tsx:75-79 | enrolling keeps the ids of the enrolled courses distinct |
| Purchases.PurchaseKeepsIdsDistinct | src/contexts/PurchasesContext.tsx:81-85 | purchasing keeps the ids of the purchased bundles distinct |
| Purchases.EnrollTwiceLeavesOne | src/contexts/PurchasesContext.tsx:75-79 | after enrolling in a course not yet enrolled, then enrolling again, exactly one entry carries its id |
| Purchases.PurchaseTwiceLeavesOne | src/contexts/PurchasesContext.tsx:81-85 | the same for bundles |
| Purchases.EnrolledKey | src/contexts/PurchasesContext.tsx:38 | the key starts with the prefix 'enrolledCourses_' and the rest of it is exactly the user id |
| Purchases.PurchasedKey | src/contexts/PurchasesContext.tsx:43 | the key starts with the prefix 'purchasedBundles_' and the rest of it is exactly the user id |
| Purchases.KeysDistinct | src/contexts/PurchasesContext.tsx:38-68 | per-user keys separate users, never collide with each other, and never collide with the application's fixed keys |
| Purchases.SaveEnrolled | src/contexts/PurchasesContext.tsx:54-62 | writes the course list under the user's key only with a user and a non-empty list |
| Purchases.SavePurchased | src/contexts/PurchasesContext.tsx:65-73 | writes the bundle list under the user's key whenever there is a user, even when the list is empty |
| Purchases.Load | src/contexts/PurchasesContext.tsx:35-51 | a stored list replaces the current one; an absent or empty entry leaves it; an unparsable course entry stops the load and leaves both lists as they were; an unparsable bundle entry leaves the bundle list |
| Purchases.SaveThenLoad | src/contexts/PurchasesContext.tsx:35-73 | a user's lists, once saved, are exactly what the load effect reads back |
| Purchases.SwitchUserCarriesOverPurchases | src/contexts/PurchasesContext.tsx:35-73 | a user with nothing stored keeps the previous user's lists, which are then written under that user's keys |
| Purchases.PurchasesProvider.constructor | src/contexts/PurchasesContext.tsx:29-32 | both lists start empty and no user is set |
| Purchases.PurchasesProvider.SetUser | src/contexts/PurchasesContext.tsx:35-73 | a new user's lists become the loaded ones, then both save effects run on them |
| Purchases.PurchasesProvider.IsEnrolledIn | src/contexts/PurchasesContext.tsx:87-89 | answers IsEnrolled on the current list |
| Purchases.PurchasesProvider.IsPurchased | src/contexts/PurchasesContext.tsx:91-93 | answers IsBundlePurchased on the current list |
| Purchases.PurchasesProvider.EnrollInCourse | src/contexts/PurchasesContext.tsx:54-79 | the list becomes Enroll of the old list; storage changes only when the list changed, through the save effect |
| Purchases.PurchasesProvider.PurchaseBundle | src/contexts/PurchasesContext.tsx:65-85 | the list becomes Purchase of the old list; storage changes only when the list changed |
| Reviews.UserReview | src/contexts/ReviewsContext.tsx:66-68 | None exactly when the user has no review of the course; otherwise one of the list's reviews |
| Reviews.CourseReviews | src/contexts/ReviewsContext.tsx:70-72 | exactly the reviews of the course, in list order, each as many times as it occurs in the list; no review of another course |
| Reviews.NewReview | src/contexts/ReviewsContext.tsx:56-61 | keeps the caller's fields, id 'review-' + timestamp, date the part of the ISO time before the first 'T' |
| Reviews.NewReviewDate | src/contexts/ReviewsContext.tsx:60 | for an ISO time day + 'T' + clock, the stored date is the day |
| Reviews.AddKeepsEarlierReview | src/contexts/ReviewsContext.tsx:56-68 | adding a second review by the same user for the same course leaves the found review as the earlier one |
| Reviews.AddFirstReview | src/contexts/ReviewsContext.tsx:56-68 | a user's first review of a course is the one found once added |
| Reviews.CourseReviewsAfterAdd | src/contexts/ReviewsContext.tsx:56-72 | adding a review extends its own course's list by it and leaves every other course's list unchanged |
| Reviews.InitialReviewCounts | src/contexts/ReviewsContext.tsx:23-51 | the seed list holds two reviews of course '1', which are its first two entries, and one of course '2' |
| Reviews.ReviewsProvider.constructor | src/contexts/ReviewsContext.tsx:53-54 | the reviews start as the seed list |
| Reviews.ReviewsProvider.AddReview | src/contexts/ReviewsContext.tsx:56-64 | appends exactly the new review; existing reviews are unchanged |
| Reviews.ReviewsProvider.GetUserReview | src/contexts/ReviewsContext.tsx:66-68 | answers UserReview on the current list |
| Reviews.ReviewsProvider.GetCourseReviews | src/contexts/ReviewsContext.tsx:70-72 | answers CourseReviews on the current list |
| ReviewForm.UserName | src/components/ReviewForm.tsx:47 | the user's name when non-empty, otherwise the part of the email before the first '@' |
| ReviewForm.UserNameFromEmail | src/components/ReviewForm.tsx:47 | with no name, an address local@domain yields local |
| ReviewForm.Decide | src/components/ReviewForm.tsx:24-51 | succeeds exactly with a user and a comment that is not blank; refuses first for no user, then for a blank comment; on success sends the user's id and display name |
| ReviewForm.WhiteSpaceCommentRefused | src/components/ReviewForm.tsx:36-43 | a comment of white space only is refused, whatever its length |
| ReviewForm.SubmitWithdrawsForm | src/components/ReviewForm.tsx:22-75 | once a first review is submitted, the form is no longer offered to that user for that course |
| ReviewForm.FormOffered | src/components/ReviewForm.tsx:22-67 | the form is offered exactly when there is no user, or the user has no review of the course |
| ReviewForm.Form.constructor | src/components/ReviewForm.tsx:14-19 | rating starts at 5 and the comment empty |
| ReviewForm.Form.ClickStar | src/components/ReviewForm.tsx:82-86 | clicking star k sets the rating to k, which stays within 1 to 5 |
| ReviewForm.Form.SetComment | src/components/ReviewForm.tsx:107-110 | the comment becomes the typed text |
| ReviewForm.Form.HandleSubmit | src/components/ReviewForm.tsx:24-65 | a refusal changes nothing; a success appends the review and resets rating to 5 and comment to empty |
| Auth.StoredUsers | src/contexts/AuthContext.tsx:79-82 | the stored user list, or empty when the key is missing, empty or unparsable |
| Auth.PublicUser | src/contexts/AuthContext.tsx:95 | the stored user's id, email, name and role, without the password |
| Auth.Token | src/contexts/AuthContext.tsx:94 | the token starts with 'dummy-token-' and the rest of it is exactly the user id |
| Auth.DashboardRoute | src/contexts/AuthContext.tsx:100 | the route is '/dashboard/' followed by the role's name |
| Auth.LoginOutcome | src/contexts/AuthContext.tsx:88-92 | fails with 'Invalid credentials' exactly when no stored user has the email, ignoring case, and the exact password; otherwise returns the public record of the first such user in the list |
| Auth.RegisterOutcome | src/contexts/AuthContext.tsx:103-109 | fails with 'User already exists' exactly when a stored user has the email, ignoring case; otherwise the account with the timestamp id |
| Auth.SignedIn | src/contexts/AuthContext.tsx:94-98 | writes the token and the public record; no other key changes |
| Auth.Registered | src/contexts/AuthContext.tsx:108-117 | the stored user list gains exactly the new account at its end; the token for its id and its public record are written; no other key changes |
| Auth.Restore | src/contexts/AuthContext.tsx:29-45 | a user is restored exactly when both keys are truthy and the record parses, leaving the store as it was; an unparsable record with both keys truthy removes exactly those two keys; without both keys the store is unchanged |
| Auth.UnparsableUserDropsSession | src/contexts/AuthContext.tsx:33-41 | a stored user that does not parse, with a truthy token, restores no user, removes both keys and keeps every other key |
| Auth.AuthSeeded | src/contexts/AuthContext.tsx:47-72 | both demo keys exist afterwards; a truthy key keeps its value; a falsy courses key receives the demo courses and a falsy bundles key the demo bundles; no other key changes |
| Auth.AuthSeedKeepsLoneCourses | src/contexts/AuthContext.tsx:51-71 | with courses present and bundles missing, the course list is kept, unlike initDemoData |
| Auth.RegisterThenLogin | src/contexts/AuthContext.tsx:88-120 | a freshly registered account signs in with the same email and password |
| Auth.CaseVariantTaken | src/contexts/AuthContext.tsx:106 | an email that differs from a registered one only in letter case is refused |
| Auth.SignInRestores | src/contexts/AuthContext.tsx:29-45 | a session written by sign-in is restored on the next mount; without its two keys it is not |
| Auth.AuthProvider.constructor | src/contexts/AuthContext.tsx:24-25 | no user, loading |
| Auth.AuthProvider.IsAuthenticated | src/contexts/AuthContext.tsx:130 | authenticated exactly when there is a current user |
| Auth.AuthProvider.RestoreSession | src/contexts/AuthContext.tsx:29-45 | the user and the store become what Restore gives; loading ends |
| Auth.AuthProvider.SeedDemoData | src/contexts/AuthContext.tsx:47-72 | the store becomes AuthSeeded of the old store |
| Auth.AuthProvider.Login | src/contexts/AuthContext.tsx:88-101 | on failure nothing changes; on success the session is written, the user set and the role's dashboard route returned |
| Auth.AuthProvider.Register | src/contexts/AuthContext.tsx:103-120 | on failure nothing changes; on success the account is appended, the session written and the dashboard route returned |
| Auth.AuthProvider.Logout | src/contexts/AuthContext.tsx:122-127 | removes exactly the token and user keys, clears the user and returns '/login' |
| DemoSeeder.DemoDataConsistent | src/lib/demoSeeder.ts:2-101 | each demo bundle's discounted price is exactly its original price less the discount percentage; ids are distinct |
| DemoSeeder.ForceSeeded | src/lib/demoSeeder.ts:104-108 | both keys hold the demo lists; every other key is untouched |
| DemoSeeder.InitSeeded | src/lib/demoSeeder.ts:118-124 | with both keys present nothing changes; otherwise the store is force-seeded |
| DemoSeeder.InitIdempotent | src/lib/demoSeeder.ts:118-124 | seeding twice equals seeding once |
| DemoSeeder.InitOverwritesLoneCourses | src/lib/demoSeeder.ts:111-124 | with only the course key present, the course list is overwritten too |
| DemoSeeder.HasDemoDataIn | src/lib/demoSeeder.ts:111-115 | true exactly when both keys are present, whatever they hold |
| DemoSeeder.ForceSeedDemoData | src/lib/demoSeeder.ts:104-108 | the store becomes ForceSeeded of the old store |
| DemoSeeder.InitDemoData | src/lib/demoSeeder.ts:118-124 | the store becomes InitSeeded of the old store |
| CourseContent.NewModule | src/components/modals/CourseContentModal.tsx:88-97 | timestamp id, title 'Module ' + (count + 1), empty text, no video, not uploaded |
| CourseContent.MergeModule | src/components/modals/CourseContentModal.tsx:113 | each field present in the patch overrides the module's; each absent field keeps it |
| CourseContent.RemoveModules | src/components/modals/CourseContentModal.tsx:107-109 | keeps every module without the id, in order and with its multiplicity; drops every module with the id |
| CourseContent.UpdateModules | src/components/modals/CourseContentModal.tsx:111-115 | same length; modules with the id are merged with the updates, the others untouched |
| CourseContent.UploadPatch | src/components/modals/CourseContentModal.tsx:118-126 | merging it into any module sets exactly the uploaded flag, the file and the preview URL |
| CourseContent.UploadThenFind | src/components/modals/CourseContentModal.tsx:118-126 | after an upload, the module found by the id carries the file, the preview URL and the uploaded flag |
| CourseContent.Sanitize | src/components/modals/CourseContentModal.tsx:155-164 | keeps id, title, description, flag and duration; drops the file; an empty preview becomes null |
| CourseContent.SanitizeAll | src/components/modals/CourseContentModal.tsx:155-165 | sanitises every module, position by position |
| CourseContent.SanitizeIdempotent | src/components/modals/CourseContentModal.tsx:155-165 | sanitising twice equals sanitising once |
| CourseContent.PublishedDraft | src/components/modals/CourseContentModal.tsx:167-176 | sends the form's fields, the parsed price, the bio and the sanitised modules, and no thumbnail |
| CourseContent.UpdateAppliesDraft | src/components/modals/CourseContentModal.tsx:178-180 | updating a course with the draft sets every sent field and keeps id, students and thumbnail |
| CourseContent.PublishEnabled | src/components/modals/CourseContentModal.tsx:543 | the publish button is disabled whenever the title, description or instructor is empty or there is no module |
| CourseContent.VideoTabDisabled | src/components/modals/CourseContentModal.tsx:220 | the video tab is enabled exactly when a non-empty module id is selected |
| CourseContent.Editor.constructor | src/components/modals/CourseContentModal.tsx:37-58 | the fields start from the edited course's fields, or empty; overview tab; nothing selected |
| CourseContent.Editor.AddModule | src/components/modals/CourseContentModal.tsx:88-105 | appends exactly the new module numbered after the old count |
| CourseContent.Editor.RemoveModule | src/components/modals/CourseContentModal.tsx:107-109 | modules become RemoveModules of the old list |
| CourseContent.Editor.UpdateModule | src/components/modals/CourseContentModal.tsx:111-115 | modules become UpdateModules of the old list |
| CourseContent.Editor.HandleVideoUpload | src/components/modals/CourseContentModal.tsx:118-130 | without a file nothing changes; with one the module gets the upload, is selected and the video tab opens |
| CourseContent.Editor.SelectModule | src/components/modals/CourseContentModal.tsx:352 | the module becomes the selected one |
| CourseContent.Editor.SaveVideoChanges | src/components/modals/CourseContentModal.tsx:528 | clears the selection, which disables the video tab |
| CourseContent.Editor.SetTab | src/components/modals/CourseContentModal.tsx:215-220 | switches tab; the video tab only while a module is selected |
| CourseContent.Editor.Publish | src/components/modals/CourseContentModal.tsx:152-192 | with the button enabled, updates the edited course with the draft, or creates a new course from it |
| Collaborator.MarketerName | src/pages/dashboard/CollaboratorDashboard.tsx:14 | the 'name' parameter when non-empty, else 'Collaborator' |
| Collaborator.HeaderAsWritten | src/pages/dashboard/CollaboratorDashboard.tsx:46-48 | the header as the source spells it: the name first, 18 characters longer than the name |
| Collaborator.Header | src/pages/dashboard/CollaboratorDashboard.tsx:46-48 | the intended header: the name, a space, then the bullet U+2022; 16 characters longer than the name |
| Collaborator.HeaderAsWrittenShowsMojibake | src/pages/dashboard/CollaboratorDashboard.tsx:47 | the header as written holds three stray characters where the bullet belongs and no bullet |
| Collaborator.HeaderNamesMarketer | src/pages/dashboard/CollaboratorDashboard.tsx:46-48 | the header starts with the name, then ' • '; different names give different headers |
| Collaborator.Dashboard.HeaderText | src/pages/dashboard/CollaboratorDashboard.tsx:46-48 | the shown heading is the name followed by the three stray characters of the as-written template, so it differs from the intended header |
| Collaborator.NewModule | src/pages/dashboard/CollaboratorDashboard.tsx:31-37 | timestamp id, title 'Module ' + (count + 1), empty text, not uploaded |
| Collaborator.RemoveModules | src/pages/dashboard/CollaboratorDashboard.tsx:39 | keeps every module without the id, in order and with its multiplicity; drops every module with the id |
| Collaborator.UpdateModules | src/pages/dashboard/CollaboratorDashboard.tsx:40 | modules with the id are merged with the updates, the others untouched |
| Collaborator.MarkUploaded | src/pages/dashboard/CollaboratorDashboard.tsx:41 | only the uploaded flag of the modules with the id is set |
| Collaborator.UploadIsUpdate | src/pages/dashboard/CollaboratorDashboard.tsx:40-41 | an upload is the update that sets only the flag |
| Collaborator.AddThenRemove | src/pages/dashboard/CollaboratorDashboard.tsx:31-39 | removing a module right after adding it under a fresh id restores the list |
| Collaborator.TeaserTitle | src/pages/dashboard/CollaboratorDashboard.tsx:52 | the first module's title + ' - Teaser' when it has one, else 'Course Teaser' |
| Collaborator.NewTeaser | src/pages/dashboard/CollaboratorDashboard.tsx:50-53 | id 'v-' + timestamp, the teaser title, rendering |
| Collaborator.MarkReady | src/pages/dashboard/CollaboratorDashboard.tsx:54-56 | videos with the id become ready; the others untouched |
| Collaborator.MarkReadyMonotone | src/pages/dashboard/CollaboratorDashboard.tsx:54-56 | a ready video stays ready, and the number of ready videos never drops |
| Collaborator.Dashboard.constructor | src/pages/dashboard/CollaboratorDashboard.tsx:11-44 | the name from the parameter, the initial title and description, no modules and no videos |
| Collaborator.Dashboard.AddModule | src/pages/dashboard/CollaboratorDashboard.tsx:31-37 | appends exactly the new module |
| Collaborator.Dashboard.RemoveModule | src/pages/dashboard/CollaboratorDashboard.tsx:39 | modules become RemoveModules of the old list |
| Collaborator.Dashboard.UpdateModule | src/pages/dashboard/CollaboratorDashboard.tsx:40 | modules become UpdateModules of the old list |
| Collaborator.Dashboard.HandleVideoUpload | src/pages/dashboard/CollaboratorDashboard.tsx:41 | modules become MarkUploaded of the old list |
| Collaborator.Dashboard.CreatePreviewVideo | src/pages/dashboard/CollaboratorDashboard.tsx:50-57 | appends a rendering teaser and returns its id |
| Collaborator.Dashboard.FinishRendering | src/pages/dashboard/CollaboratorDashboard.tsx:54-56 | videos become MarkReady of the old list |
| Collaborate.Heads | src/pages/CollaboratePage.tsx:32 | one character at most per word |
| Collaborate.Initials | src/pages/CollaboratePage.tsx:32 | at most two characters, none a lower-case letter |
| Collaborate.HeadsSingle | src/pages/CollaboratePage.tsx:32 | a word contributes its first character; an empty word contributes nothing |
| Collaborate.HeadsAppend | src/pages/CollaboratePage.tsx:32 | the heads of two word lists in a row are the heads of the first followed by the heads of the second |
| Collaborate.InitialsOfOneWord | src/pages/CollaboratePage.tsx:32 | a single space-free word gives its first letter, upper-cased |
| Collaborate.InitialsOfWords | src/pages/CollaboratePage.tsx:32 | for two or more space-free words, the upper-cased first letters of the first two |
| Collaborate.SearchMarketers | src/pages/CollaboratePage.tsx:51-57 | all marketers for a blank search; otherwise those whose name or specialisation contains the untrimmed query, ignoring case, in order |
| Collaborate.Connections | src/pages/CollaboratePage.tsx:63 | exactly the accepted invitations, each as many times as it occurs |
| Collaborate.PendingOnes | src/pages/CollaboratePage.tsx:64 | exactly the pending invitations, each as many times as it occurs |
| Collaborate.Accept | src/pages/CollaboratePage.tsx:59-61 | invitations with the id become accepted; the others untouched |
| Collaborate.AcceptIdempotent | src/pages/CollaboratePage.tsx:59-61 | accepting twice equals accepting once |
| Collaborate.AcceptLeavesNonePending | src/pages/CollaboratePage.tsx:59-64 | after accepting, no pending invitation has the id |
| Collaborate.ConnectionsPendingPartition | src/pages/CollaboratePage.tsx:63-64 | connections and pending invitations together number exactly the invitations |
| Collaborate.FetchedAllPending | src/pages/CollaboratePage.tsx:39-49 | every fetched invitation starts pending; there are no connections yet |
| Collaborate.Page.constructor | src/pages/CollaboratePage.tsx:35-37 | empty search, loading, no invitations |
| Collaborate.Page.FinishLoading | src/pages/CollaboratePage.tsx:39-49 | the invitations become the fetched ones and loading ends |
| Collaborate.Page.SetSearch | src/pages/CollaboratePage.tsx:82 | the search becomes the typed text |
| Collaborate.Page.Shown | src/pages/CollaboratePage.tsx:51-57 | the shown marketers are an order-preserving selection of all of them |
| Collaborate.Page.AcceptInvitation | src/pages/CollaboratePage.tsx:59-61 | invitations become Accept of the old list |
| Sidebar.VisibleItems | src/components/DashboardSidebar.tsx:78-80 | no entries without a user; otherwise exactly the entries listing the role, in declaration order |
| Sidebar.ItemVisible | src/components/DashboardSidebar.tsx:78-80 | an entry is visible exactly when it lists the role |
| Sidebar.VisibilityPerItem | src/components/DashboardSidebar.tsx:25-80 | Dashboard, Courses, Analytics and AI Suggestions for every role; Bundles for marketer and student; Students for educator and marketer; My Purchases for student only |
| Sidebar.Link | src/components/DashboardSidebar.tsx:90-93 | '/courses' and '/bundles' get '/role/' + role; every other entry '/' + role |
| Sidebar.IsActive | src/components/DashboardSidebar.tsx:87 | an entry is active exactly when the path is its href followed by anything |
| Sidebar.LinkActivatesItem | src/components/DashboardSidebar.tsx:87-93 | following an entry's link highlights that entry |
| Sidebar.CatalogLinkIsNotDetailRoute | src/components/DashboardSidebar.tsx:89-93 | a catalogue link never equals a detail route for an id without '/' |
| Suggestions.SuggestionsFor | src/pages/AISuggestionsPage.tsx:112-117 | educator and marketer lists by role; students and visitors get the student list; two or three entries |
| Suggestions.ToggleIndex | src/pages/AISuggestionsPage.tsx:125-129 | the index is present afterwards exactly when it was absent; other indices unchanged; an absent index is appended |
| Suggestions.ToggleKeepsNoDuplicates | src/pages/AISuggestionsPage.tsx:125-129 | toggling keeps the completed list free of duplicates |
| Suggestions.ToggleTwice | src/pages/AISuggestionsPage.tsx:125-129 | toggling an absent index twice restores the list; any index toggled twice restores the set |
| Suggestions.TogglePlan | src/pages/AISuggestionsPage.tsx:131-133 | opens the plan, or closes it when it is the open one |
| Suggestions.CompletionRate | src/pages/AISuggestionsPage.tsx:135-137 | the percentage rounded half up, as an exact integer bound |
| Suggestions.CompletionRateBounds | src/pages/AISuggestionsPage.tsx:135-137 | 0 with nothing done, 100 with all done, never above 100, monotone, below 100 while unfinished for fewer than 200 items |
| Suggestions.DistinctIndicesBound | src/pages/AISuggestionsPage.tsx:122-137 | distinct in-range indices number at most the range, and equal it only when they cover it |
| Suggestions.Page.constructor | src/pages/AISuggestionsPage.tsx:122-123 | nothing completed and no plan open |
| Suggestions.Page.Rate | src/pages/AISuggestionsPage.tsx:135-137 | at most 100, and 100 exactly when every displayed suggestion is completed |
| Suggestions.Page.ToggleCompletion | src/pages/AISuggestionsPage.tsx:125-129 | completed becomes ToggleIndex of the old list; the page invariant is kept |
| Suggestions.Page.TogglePlanAt | src/pages/AISuggestionsPage.tsx:131-133 | the open plan becomes TogglePlan of the old one |
| Chatbot.Next | src/contexts/ChatbotContext.tsx:15-17 | toggle flips the flag, open shows the panel, close hides it |
| Chatbot.ActionLaws | src/contexts/ChatbotContext.tsx:15-17 | toggling twice restores the flag; open and close are idempotent |
| Chatbot.ChatbotState.constructor | src/contexts/ChatbotContext.tsx:13 | the panel starts hidden |
| Chatbot.ChatbotState.ToggleChatbot | src/contexts/ChatbotContext.tsx:15 | flips the flag |
| Chatbot.ChatbotState.OpenChatbot | src/contexts/ChatbotContext.tsx:16 | shows the panel |
| Chatbot.ChatbotState.CloseChatbot | src/contexts/ChatbotContext.tsx:17 | hides the panel |
| Chatbot.UseChatbot | src/contexts/ChatbotContext.tsx:26-32 | fails with the provider message exactly when there is no provider; otherwise returns its state |
| ChatAssistant.MatchedCourses | src/components/ChatbotSidebar.tsx:47-54 | exactly the courses whose title or description contains the untrimmed input, ignoring case, in course order |
| ChatAssistant.MatchedCoursesCounts | src/components/ChatbotSidebar.tsx:47-54 | every matching course is kept as often as it occurs in the catalogue; no other course is kept |
| ChatAssistant.CourseLink | src/components/ChatbotSidebar.tsx:60 | the anchor carries the course id and title and ends with the closing tag |
| ChatAssistant.Links | src/components/ChatbotSidebar.tsx:59-61 | one link per matched course, in order |
| ChatAssistant.BotReply | src/components/ChatbotSidebar.tsx:56-76 | the fallback text when nothing matches; otherwise a reply opening with the found-courses sentence |
| ChatAssistant.NoMatchReplyIffNoMatch | src/components/ChatbotSidebar.tsx:56-76 | the fallback reply is sent exactly when no course matches |
| ChatAssistant.FoundReplyIsNotFallback | src/components/ChatbotSidebar.tsx:58-76 | a reply opening with the found-courses sentence never equals the fallback text |
| ChatAssistant.ReplyLinksEveryMatch | src/components/ChatbotSidebar.tsx:58-68 | the link of every matching course appears in the reply |
| ChatAssistant.ExchangesAppend | src/components/ChatbotSidebar.tsx:41-78 | a user message answered by a bot message extends a run of exchanges |
| ChatAssistant.ConversationExtend | src/components/ChatbotSidebar.tsx:41-78 | answering a user message keeps the log a greeting followed by exchanges |
| ChatAssistant.ExchangesBalanced | src/components/ChatbotSidebar.tsx:41-78 | a run of exchanges holds as many bot messages as user messages |
| ChatAssistant.ConversationBalanced | src/components/ChatbotSidebar.tsx:18-78 | the log holds exactly one more bot message than user messages |
| ChatAssistant.ChatSession.constructor | src/components/ChatbotSidebar.tsx:18-27 | the log is the greeting alone, the input empty, and the sidebar's own catalogue holds the mock courses |
| ChatAssistant.ChatSession.SetInput | src/components/ChatbotSidebar.tsx:129 | the input becomes the typed text |
| ChatAssistant.ChatSession.SendMessage | src/components/ChatbotSidebar.tsx:30-80 | blank input changes nothing; otherwise the raw input and the reply to it are appended, the input is cleared, and the log stays a conversation |
| CoursesPage.VisibleCourses | src/pages/CoursesPage.tsx:23-35 | every course for an empty query; otherwise exactly the courses whose title or category contains the query, ignoring case |
| CoursesPage.VisibleIsFilter | src/pages/CoursesPage.tsx:23-35 | the empty-query branch equals the filter, so the result is always an order-preserving filter |
| CoursesPage.ActionLabel | src/pages/CoursesPage.tsx:41-52 | educators get exactly 'Manage Course', marketers 'License Course', students 'Enroll Now', visitors 'View Course' |
| CoursesPage.ShowsCreateButton | src/pages/CoursesPage.tsx:65-70 | the create button shows exactly for the role whose label is 'Manage Course' |
| CoursesPage.ActionLabelsDistinct | src/pages/CoursesPage.tsx:41-52 | each role, and the visitor, gets its own label; the create button goes exactly with 'Manage Course' |
| CoursesPage.CourseRoute | src/pages/CoursesPage.tsx:37-39 | the route starts with '/courses/' |
| CoursesPage.CourseRouteInjective | src/pages/CoursesPage.tsx:37-39 | different courses lead to different routes |
| CoursesPage.Page.constructor | src/pages/CoursesPage.tsx:14-17 | empty query and empty list before the first effect; the page's catalogue holds the mock courses |
| CoursesPage.Page.Refresh | src/pages/CoursesPage.tsx:23-35 | the list becomes VisibleCourses of the catalogue and query |
| CoursesPage.Page.SetSearchQuery | src/pages/CoursesPage.tsx:77 | the query becomes the typed text and the list follows it |
| BundlesPage.VisibleBundles | src/pages/BundlesPage.tsx:23-33 | every bundle for an empty query; otherwise exactly those whose title contains it, ignoring case |
| BundlesPage.VisibleIsFilter | src/pages/BundlesPage.tsx:23-33 | the empty-query branch equals the filter, so the result is always an order-preserving filter |
| BundlesPage.ActionLabel | src/pages/BundlesPage.tsx:39-48 | marketers get exactly 'Manage Bundle', students 'Purchase Bundle', educators and visitors 'View Bundle' |
| BundlesPage.ShowsCreateButton | src/pages/BundlesPage.tsx:60-65 | the create button shows exactly for the role whose label is 'Manage Bundle' |
| BundlesPage.ActionLabelsByRole | src/pages/BundlesPage.tsx:39-48 | marketers and students have labels of their own; educators share the visitor's; the create button goes exactly with 'Manage Bundle' |
| BundlesPage.BundleRoute | src/pages/BundlesPage.tsx:35-37 | the route starts with '/bundles/' |
| BundlesPage.BundleRouteInjective | src/pages/BundlesPage.tsx:35-37 | different bundles lead to different routes |
| BundlesPage.Page.constructor | src/pages/BundlesPage.tsx:14-17 | empty query and empty list before the first effect; the page's catalogue holds the mock bundles |
| BundlesPage.Page.Refresh | src/pages/BundlesPage.tsx:23-33 | the list becomes VisibleBundles of the catalogue and query |
| BundlesPage.Page.SetSearchQuery | src/pages/BundlesPage.tsx:72 | the query becomes the typed text and the list follows it |
| StudentsPage.FilteredStudents | src/pages/StudentsPage.tsx:49-53 | exactly the students whose name, email or institution contains the term, ignoring case, in order and with their multiplicity |
| StudentsPage.EmptyTermKeepsAll | src/pages/StudentsPage.tsx:49-53 | the empty term keeps every student |
| StudentsPage.TableFor | src/pages/StudentsPage.tsx:75-104 | the loading notice exactly while loading; rows are the non-empty filtered list |
| StudentsPage.NoMatchRowIffNoneMatch | src/pages/StudentsPage.tsx:90-104 | once loaded, the no-match row shows exactly when no student matches |
| StudentsPage.LoadedListShowsAll | src/pages/StudentsPage.tsx:14-46 | the notice before the load; every mock student after it, for an empty box |
| TeachersPage.FilteredTeachers | src/pages/TeachersPage.tsx:45-49 | exactly the teachers whose name, email or specialisation contains the term, ignoring case, in order and with their multiplicity |
| TeachersPage.EmptyTermKeepsAll | src/pages/TeachersPage.tsx:45-49 | the empty term keeps every teacher |
| TeachersPage.TableFor | src/pages/TeachersPage.tsx:71-110 | the loading notice exactly while loading; rows are the non-empty filtered list |
| TeachersPage.NoMatchRowIffNoneMatch | src/pages/TeachersPage.tsx:87-110 | once loaded, the no-match row shows exactly when no teacher matches |
| TeachersPage.InviteMessage | src/pages/TeachersPage.tsx:40-43 | the alert opens with 'Invitation sent to ', closes with ')', and is 22 characters longer than the name and address together |
| TeachersPage.InviteMessageNamesTeacher | src/pages/TeachersPage.tsx:40-43 | the alert starts 'Invitation sent to ', names the teacher and ends with the address in parentheses |
| Text.BlankIffAllSpace | src/components/ReviewForm.tsx:36 | a string trims to empty exactly when every character is white space |
| Text.NatToStringInjective | src/hooks/useCourses.ts:92 | different counts give different decimal ids |

## Left out

- Simulated latency: `setTimeout`/`await` delays and loading spinners are not modelled. Each operation is one atomic step, so the stale-closure races of overlapping calls are absent.
- ChatAssistant.ChatSession.SendMessage: the one-second delayed bot reply is made part of the same step as the user message, so no second message can slip in between.
- JSON: `JSON.stringify`/`JSON.parse` are abstracted to typed stored values. A value of the wrong shape is `Text`; an array holding malformed records is not modelled.
- Storage quota errors and all console output are left out.
- Case mapping covers ASCII letters only; Unicode `toLowerCase`/`toUpperCase` is not modelled.
- Suggestions.CompletionRate: `Math.round` over a floating-point quotient is modelled as exact rational rounding half up.
- CourseContent.Editor.Publish: `parseFloat` of the price text is a parameter, so NaN prices are not modelled. The thrown-error branch is left out, since the in-memory repository never throws.
- Rendering, toasts, alerts, `navigate` and routing are left out. Routes are returned strings.
- HTML: the `dangerouslySetInnerHTML` rendering and DOM click dispatching in the chatbot sidebar and the suggestions page are left out, as is the suggestions page's auto-open of the chatbot.
- The "outside its provider" errors of `useAuth`, `usePurchases` and `useReviews` are left out; only `useChatbot`'s is modelled.
- `File` objects and `URL.createObjectURL` become parameters: a file is its name, a preview URL is a string.
- The video brightness, contrast and noise sliders, the simulated AI-enhance and notes timers, and the hover highlight of the rating stars are left out.
- Purchases.PurchasesProvider.SetUser: React runs the load effect and the two save effects separately. They are folded into one step in effect order, and the save effects see the loaded lists. In React the first run of the save effects sees the previous user's lists and writes them under the new user's keys; the loaded lists overwrite them only on the next render. The outcomes differ when the new user's stored course list is empty ("[]"). Then the save effect skips the empty loaded list, and the previous user's non-empty course list stays written under the new user's key. The folded step leaves the new user's empty list in place.
- Purchases.Load: a stored list holding the wrong element type is not distinguished from a parse failure.
- Auth.Restore: a 'user' value that parses as JSON but is not a user record is treated as unparsable.
- The bundle discount formula with `toFixed(2)` in the bundle-creation dialog is out. The exact integer form of the discount invariant is proved for the demo data instead.
- The per-role subtitles under the course and bundle page headings are rendering and are not modelled.
- CoursesPage.Page, BundlesPage.Page, ChatAssistant.ChatSession and the course-authoring dialog (CourseContent.Editor) each call their catalogue hook themselves, so each owns a fresh catalogue starting from the mock list. Changes made through one of them are not seen by another. CourseContent.Editor takes its repository as a parameter; in the application that repository is the dialog's own.

## Findings

| source | as written | input that shows it | evidently intended | confidence | as-written member | corrected member |
|---|---|---|---|---|---|---|
| src/pages/dashboard/CollaboratorDashboard.tsx:47 | the header template's separator is the three characters U+00E2 U+20AC U+00A2, the UTF-8 bytes of the bullet read back as Windows-1252 | any marketer name, e.g. 'Collaborator', gives the header 'Collaborator â€¢ Collaboration' | the single bullet U+2022, as in the 'Connected • Access marketer dashboard' label of src/pages/CollaboratePage.tsx:154 | high; not executed | Collaborator.HeaderAsWrittenShowsMojibake | Collaborator.HeaderNamesMarketer |
