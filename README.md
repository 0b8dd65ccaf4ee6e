# Freelance marketplace: a verified model of its rules

The marketplace has a Django backend and a Next.js front end. Clients post projects, freelancers send proposals, both sides message each other, and freelancers keep a profile with skills, an hourly rate, an avatar and video demos. This project models in Dafny the rules the system enforces and computes, and proves what they promise:

- **Accounts, projects and proposals** (`accounts.dfy`, `projects.dfy`, `project_views.dfy`): role and status choices, defaults, owner stamping by the serializers, the one-proposal-per-freelancer rule, ownership checks and the `my_projects`, `my_proposals` and `my_active_projects` endpoints. `ProjectViews.ProjectStore` is a store of projects and proposals whose methods are the create, update and delete views.
- **Profiles** (`profiles.dfy`): profile defaults, the avatar path and URL, the partial profile update and its data-URL parsing, and demo and profile visibility and ownership.
- **Freelancer rankings** (`ranking.dfy`, `sorting.dfy`): the top, newcomer and featured leaderboards as pure score functions over per-freelancer metrics, followed by a stable descending sort and a truncation.
- **Messaging** (`messaging.dfy`): `Messaging.MessageStore` holds conversations and their messages; its methods are start (get or create), retrieve (mark read) and send, and the unread counts and last message are functions of its state.
- **Server actions** (`server_actions.dfy`, `post_project.dfy`, `apply_to_project.dfy`, `update_profile.dfy`): form-data reading, the zod schemas, the request payloads and the error maps built from the API's answer.
- **Forms and editors** (`project_form.dfy`, `skill_editor.dfy`, `profile_input.dfy`, `profile_edit_form.dfy`, `profile_edit_page.dfy`, `signup_form.dfy`): client-side schemas, the capped skill lists, the comma-list round trip and each component's submit handler as a class over its state.
- **Pages** (`client_dashboard.dfy`, `freelancer_dashboard.dfy`, `dashboard_data.dfy`, `chat_ui.dfy`, `projects_page.dfy`, `display.dfy`): dashboard statistics, role gates, conversation search, the project query string, and the time, deadline, badge and colour helpers.
- **Media** (`image_upload.dfy`, `video_upload.dfy`): the avatar centre-crop, the watermark layout, file checks, title derivation, tag parsing and the progress counter.
- **Shared pieces** (`common.dfy`, `text.dfy`): options and replies, filters and counts, JavaScript `trim` and Python `str.strip` (which the serializers apply to text fields), and `split` with its round trips.

Inputs the system takes from outside are parameters of the model: the current time, API replies (including a thrown call), the database contents (as the store's state), and the `toLowerCase`, `parseFloat`, `Number`, `parseInt`, e-mail and base64 checks. Decimal amounts are Dafny `real`, which is exact. Time is an integer number of milliseconds.

## Model

| member | source | states |
|---|---|---|
| Accounts.ParseRole | freelance_backend/accounts/models.py:5-12 | a stored role is read back only when it is one of the three role choices, and then names exactly that choice |
| Accounts.RoleRoundTrip | freelance_backend/accounts/models.py:5-9 | every role survives being stored and read back |
| Accounts.CreateUser | freelance_backend/accounts/models.py:11-19 | a user is created exactly when the e-mail is present, unused and at most 254 characters, the username is present, unused and at most 150 characters, the name at most 255 characters and the role one of the choices; the new user carries the given e-mail, username, name and role, and both e-mail and username uniqueness are preserved |
| Projects.ParseProjectStatus | freelance_backend/projects/models.py:7-12 | a stored project status is accepted only when it is one of the four choices, and then names it |
| Projects.ProjectStatusRoundTrip | freelance_backend/projects/models.py:7-12 | every project status survives being stored and read back |
| Projects.ParseProposalStatus | freelance_backend/projects/models.py:42-46 | a stored proposal status is accepted only when it is one of the three choices, and then names it |
| Projects.ProposalStatusRoundTrip | freelance_backend/projects/models.py:42-46 | every proposal status survives being stored and read back |
| Projects.NewProject | freelance_backend/projects/serializers.py:16-20 | a created project always belongs to the requesting user, gets the store's id and time, defaults to status open and no skills, stores title and description with only their surrounding Python white space removed, keeps the category, and has a budget exactly when an amount was sent |
| Projects.NewProjectDefaults | freelance_backend/projects/models.py:29-31 | a project created without a status is open, and a client named in the request body is ignored |
| Projects.NewProposal | freelance_backend/projects/serializers.py:41-45 | a created proposal always belongs to the requesting freelancer, defaults to pending, keeps the submitted project and budget, and stores message and timeline with only their surrounding Python white space removed |
| Projects.UpdateProject | freelance_backend/projects/serializers.py:9-16 | an update stores the stripped title and description and the category; a budget left out keeps its value, an explicit null clears it and an amount replaces it; the id, the client and the creation time never change |
| Projects.ProposalsCount | freelance_backend/projects/serializers.py:22-27 | the count never exceeds the number of proposals and is zero exactly when no proposal names the project |
| Projects.ProposalsCountAppend | freelance_backend/projects/serializers.py:23 | a new proposal on the project raises its count by one; one on another project leaves it unchanged |
| ProjectViews.ProjectIndex | freelance_backend/projects/views.py:29-30 | the lookup finds a position holding the requested id, and finds nothing exactly when no project has that id (the 404 case) |
| ProjectViews.MyProjects | freelance_backend/projects/views.py:75-84 | 403 exactly for non-clients; otherwise exactly the requester's projects, newest first |
| ProjectViews.MyProposals | freelance_backend/projects/views.py:86-95 | 403 exactly for non-freelancers; otherwise exactly the requester's proposals, newest first |
| ProjectViews.MyActiveProjects | freelance_backend/projects/views.py:97-124 | 403 exactly for the admin role; a client gets exactly their open or in-progress projects; a freelancer gets exactly the in-progress projects on which they hold an accepted proposal; newest first |
| ProjectViews.FreelancerActiveAreInProgress | freelance_backend/projects/views.py:107-119 | every project listed for a freelancer is in progress and carries a proposal of theirs |
| ProjectViews.ProjectProposals | freelance_backend/projects/views.py:48-52 | for a non-zero project id the list holds exactly the proposals on that project, and its length is the detail view's proposals count; a project id of 0 is falsy and lists every proposal |
| ProjectViews.DeleteKeepsValid | freelance_backend/projects/models.py:48-57 | deleting a project and, by cascade, its proposals keeps ids unique, pairs unique and every proposal pointing at a stored project |
| ProjectViews.ProjectStore.CreateProject | freelance_backend/projects/views.py:13-23 | 201 exactly for a valid body, appending the project built for the requester; 400 otherwise with nothing stored; the store invariant is kept |
| ProjectViews.BlankTitleRefused | freelance_backend/projects/models.py:25 | a title made only of white space is refused, since the field is checked after stripping |
| ProjectViews.ThirdDecimalRefused | freelance_backend/projects/models.py:27 | a budget with a third decimal place (12.345) is refused, not rounded |
| ProjectViews.ProjectStore.UpdateProject | freelance_backend/projects/views.py:32-36 | 404 for an unknown id, 400 for an invalid body, 500 for anyone but the project's client; otherwise only that project's writable fields change |
| ProjectViews.ProjectStore.DeleteProject | freelance_backend/projects/views.py:38-42 | 404 for an unknown id, 500 for anyone but the client; otherwise the project and exactly its proposals are removed |
| ProjectViews.ProjectStore.CreateProposal | freelance_backend/projects/views.py:61-73 | 400 for an invalid body, 500 for a non-freelancer or a second proposal on the same project; otherwise the requester's proposal is appended |
| ProjectViews.ProjectStore.CreateProposalForProject | freelance_backend/projects/views.py:54-59 | no role check; a non-zero project id in the URL replaces the body's, while 0 is falsy and leaves the body's project; an unknown project or a duplicate pair is a 500 |
| ProjectViews.ProjectStore.AppendProposal | freelance_backend/projects/models.py:56-57 | storing a proposal whose (project, freelancer) pair is new keeps at most one proposal per pair |
| Profiles.NewProfile | freelance_backend/profiles/models.py:10-22 | a fresh profile has rating 0, no projects, no skills, no rate and no avatar, and its rating fits the decimal field |
| Profiles.AvatarPath | freelance_backend/profiles/models.py:6-8 | the avatar path is always under avatars/ and ends with /avatar.jpg, whatever the uploaded file was called |
| Profiles.AvatarPathNamesOwner | freelance_backend/profiles/models.py:6-8 | the user id can be read back out of the avatar path |
| Profiles.AvatarPathInjective | freelance_backend/profiles/models.py:6-8 | two users never share an avatar path |
| Profiles.StoredAvatarPath | freelance_backend/profiles/views.py:101-109 | the stored avatar lies in the user's own avatars/<id>/ directory, is named avatar…jpg, and is exactly the avatar path when the storage adds no suffix |
| Profiles.AvatarUrl | freelance_backend/profiles/serializers.py:18-25 | there is a URL exactly when an avatar is stored; it ends with the media URL of the file, and starts with the request origin when there is a request |
| Profiles.ApplyProfileUpdate | freelance_backend/profiles/serializers.py:11-16 | each writable field sent replaces the stored one (headline, bio, location and website stripped of surrounding Python white space; a `null` avatar clears it, an uploaded one replaces it) and each field left out keeps its value; id, user, rating, total projects and creation time never change |
| Profiles.ParseAvatarData | freelance_backend/profiles/views.py:69-84 | a data URL must split on ;base64, into exactly two parts, and its extension is the header's text after the last slash; any other value is taken whole as a jpg payload; the image is accepted exactly when its payload decodes |
| Profiles.UpdateMyProfile | freelance_backend/profiles/views.py:61-121 | 404 exactly without a profile; 200 exactly when the image (if any) decodes and the body is valid, else 400; the saved profile is the serializer update applied to the stored one, with only the avatar possibly changed; a sent image is stored in the user's avatar directory under the name the storage chose, unless the body's own `avatar` (a file or null) overrides it; with neither the avatar is kept |
| Profiles.NewDemo | freelance_backend/profiles/serializers.py:37-42 | a demo always belongs to the requester, is public and untagged unless the request says otherwise, and stores title, description and category stripped |
| Profiles.DemoOwnerIsRequester | freelance_backend/profiles/serializers.py:39-42 | a demo submitted for someone else's profile is still filed under the requester |
| Profiles.VisibleDemos | freelance_backend/profiles/views.py:489-494 | a viewer sees exactly the public demos plus their own, newest first |
| Profiles.PrivateDemoHidden | freelance_backend/profiles/views.py:489-494 | a private demo is visible exactly to its owner |
| Profiles.DemoWriteStatus | freelance_backend/profiles/views.py:485-506 | anonymous writers are refused, a demo the viewer cannot see is 404, an invalid body on a visible demo is 400 before ownership is checked, and success requires a valid body and that the viewer owns a demo with that id |
| Profiles.OwnerCanWriteDemo | freelance_backend/profiles/views.py:496-506 | the owner of a demo sending a valid body is answered with the success status |
| Profiles.NonOwnerCannotWriteDemo | freelance_backend/profiles/views.py:496-506 | someone else's demo is never written: 404 when it is private, 400 for an invalid body and 500 otherwise when it is public |
| Profiles.ProfileWriteStatus | freelance_backend/profiles/views.py:22-39 | anonymous writers are refused, an unknown profile is 404, and a valid write succeeds exactly for the profile's own user |
| Messaging.UnreadCount | freelance_backend/messaging/serializers.py:36-40 | the unread count never exceeds the number of messages and is zero exactly when every message is read or was sent by the user |
| Messaging.UnreadCountAppend | freelance_backend/messaging/serializers.py:36-40 | a new message raises a user's count by one exactly when it is unread and sent by someone else |
| Messaging.SerializedUnreadCount | freelance_backend/messaging/serializers.py:63-67 | 0 without a request user, otherwise the user's unread count |
| Messaging.LastMessage | freelance_backend/messaging/serializers.py:30-34 | there is a last message exactly when the conversation has messages, and it is one of them |
| Messaging.LastMessageIsNewest | freelance_backend/messaging/models.py:29-30 | under the creation-time ordering the last message is newer than every other message |
| Messaging.LastMessageSummary | freelance_backend/messaging/serializers.py:53-61 | the summary exists exactly when there are messages, and shows the last message's content, its sender's e-mail and its time |
| Messaging.MarkRead | freelance_backend/messaging/views.py:73-76 | every message not sent by the reader becomes read, and nothing else about any message changes |
| Messaging.MarkReadEffect | freelance_backend/messaging/views.py:73-76 | after marking, the reader has nothing unread, and the other participant's unread count is exactly the reader's own unread messages |
| Messaging.MarkReadKeepsOrder | freelance_backend/messaging/models.py:29-30 | marking messages read keeps them in creation order |
| Messaging.ConversationsOf | freelance_backend/messaging/views.py:11-20 | the list holds exactly the conversations the user takes part in, most recently updated first |
| Messaging.UnreadTotalUpdate | freelance_backend/messaging/views.py:109-121 | changing one conversation changes the user's unread total only by that conversation's change |
| Messaging.UnreadTotalAppend | freelance_backend/messaging/views.py:109-121 | a new conversation adds its unread messages to the total only when the user takes part in it |
| Messaging.TripleIndex | freelance_backend/messaging/views.py:49-53 | the lookup finds a conversation with the requested client, freelancer and project, or none has that triple |
| Messaging.Pairing | freelance_backend/messaging/views.py:38-46 | a pair exists exactly when one side is a client and the other a freelancer; the client always goes first |
| Messaging.MarkReadKeepsValid | freelance_backend/messaging/views.py:73-76 | marking one conversation's messages read keeps ids and triples unique and messages ordered, and leaves the reader nothing unread there |
| Messaging.AppendKeepsValid | freelance_backend/messaging/models.py:14-15 | adding an empty conversation with a new triple keeps at most one conversation per (client, freelancer, project) |
| Messaging.MessageStore.StartConversation | freelance_backend/messaging/views.py:22-56 | 400 without a user id, 404 for an unknown user, 400 unless one side is a client and the other a freelancer; for a valid pair the conversation of the (client, freelancer, project) triple is returned with 200 exactly when it exists, otherwise a new one for that client and freelancer is created with 201 (500 only for an unknown or negative project id); a falsy project id means no project; ids and clock advance only on 201 |
| Messaging.MessageStore.Retrieve | freelance_backend/messaging/views.py:58-79 | 404 unless the requester takes part in the conversation; otherwise exactly that conversation's messages from others are marked read, the response lists the messages as they were before and its unread count is 0 |
| Messaging.MessageStore.SendMessage | freelance_backend/messaging/views.py:81-107 | 500 for an admin, 404 unless the requester sits in their role's slot, 400 for empty content; otherwise one unread message by the requester is appended and the conversation's update time moves on |
| Messaging.SendRaisesOtherUnread | freelance_backend/messaging/views.py:97-107 | a sent message raises the other participant's unread total by one and leaves the sender's unchanged |
| Messaging.RetrieveClearsUnread | freelance_backend/messaging/views.py:73-76 | opening a conversation takes exactly its unread messages off the reader's total |
| Sorting.SortDesc | freelance_backend/profiles/views.py:202 | the ordering is a permutation of its input, sorted by descending key |
| Sorting.TopNSpec | freelance_backend/profiles/views.py:202 | slicing the ordered rows keeps at most n of them, sorted, drawn from the input, and no row left out ranks above a row kept |
| Sorting.SelectSorted | freelance_backend/projects/views.py:82 | filtering then ordering keeps exactly the matching rows, each as often as in the input, in descending key order |
| Ranking.CountsOrdered | freelance_backend/profiles/views.py:140-146 | completed projects never exceed accepted proposals, which never exceed all proposals |
| Ranking.Completeness | freelance_backend/profiles/views.py:156-171 | completeness is a multiple of 20 between 0 and 100 |
| Ranking.CompletenessExtremes | freelance_backend/profiles/views.py:156-171 | completeness is 100 exactly when all five parts are filled in, and 0 exactly when none is |
| Ranking.NewProfileIncomplete | freelance_backend/profiles/views.py:156-171 | a freshly created profile scores 0 |
| Ranking.CompletenessAsQueried | freelance_backend/profiles/views.py:156-171 | the completeness the query computes is always at least 20 |
| Ranking.SkillsLenIsKeyLookup | freelance_backend/profiles/views.py:160 | the query's completeness exceeds the intended one by exactly 20 for a profile without skills; a fresh profile scores 20 instead of 0 |
| Ranking.SuccessRate | freelance_backend/profiles/views.py:149-153 | the success rate lies in 0-100, is 0 without proposals and 100 when every proposal was accepted |
| Ranking.CompletionRate | freelance_backend/profiles/views.py:345-349 | the completion rate lies in 0-100 and is 0 without accepted proposals |
| Ranking.TopScoreBounds | freelance_backend/profiles/views.py:173-197 | for ratings on the 0-5 scale the composite score stays within 0-100 |
| Ranking.TopScoreMaximum | freelance_backend/profiles/views.py:173-197 | rating 5, ten completed projects, every proposal accepted, recent activity and a complete profile score exactly 100 |
| Ranking.TopFreelancersSpec | freelance_backend/profiles/views.py:198-202 | exactly min(10, eligible) eligible freelancers from the input, by descending score, rating and completed projects; none left out outranks one kept, and all are kept when 10 or fewer qualify |
| Ranking.DaysSinceJoining | freelance_backend/profiles/views.py:232-239 | the days since joining are always one of the buckets 1, 7, 30, 60 or 90 |
| Ranking.RecencyMonotone | freelance_backend/profiles/views.py:262-268 | joining later never lowers the recency points |
| Ranking.NewcomerScoreBounds | freelance_backend/profiles/views.py:260-290 | the newcomer score lies between 5 and 100 |
| Ranking.NewcomerScoreMaximum | freelance_backend/profiles/views.py:260-290 | joining today with three first-week proposals, one accepted, and a complete profile scores exactly 100 |
| Ranking.NewcomerFreelancersSpec | freelance_backend/profiles/views.py:220-294 | exactly min(10, eligible) freelancers who joined within 90 days with at least 40 completeness, by descending score and then newest join; none left out outranks one kept |
| Ranking.HighDemandHits | freelance_backend/profiles/views.py:352-364 | at most four keyword hits |
| Ranking.DiversityIsKeyLookup | freelance_backend/profiles/views.py:417-421 | the query gives five skills no diversity bonus where the intended bonus is 10 |
| Ranking.Performance | freelance_backend/profiles/views.py:387-399 | for ratings on the 0-5 scale the performance part stays within 0-30 |
| Ranking.MarketDemand | freelance_backend/profiles/views.py:403-422 | the market-demand part lies in 0-40, above its documented 25 share |
| Ranking.MarketDemandAsQueried | freelance_backend/profiles/views.py:403-422 | the market-demand part the query computes lies in 0-30, the intended part without its diversity bonus |
| Ranking.Reliability | freelance_backend/profiles/views.py:426-436 | the reliability part stays within 0-20 |
| Ranking.Presence | freelance_backend/profiles/views.py:440-450 | the presence part stays within 0-15 |
| Ranking.PresenceAsQueried | freelance_backend/profiles/views.py:440-450 | the presence part the query computes lies in 2-15 and exceeds the intended one by exactly 2 for a profile without skills |
| Ranking.Satisfaction | freelance_backend/profiles/views.py:454-461 | the satisfaction part stays within 0-10 |
| Ranking.FeaturedScoreAsWritten | freelance_backend/profiles/views.py:384-463 | the featured score as the query sums it, from the parts it really computes, lies within 2-105 for ratings on scale |
| Ranking.FeaturedScoreExceedsHundred | freelance_backend/profiles/views.py:384-463 | a concrete freelancer with a rating on scale scores exactly 105 in the query, past the documented 0-100 range |
| Ranking.FeaturedScore | freelance_backend/profiles/views.py:384-463 | with market demand held to 25 and the intended completeness and diversity, the featured score stays within 0-100 and never exceeds the query's score plus the diversity bonus it misses |
| Ranking.FeaturedScoresAgree | freelance_backend/profiles/views.py:403-422 | the corrected and queried scores agree for a freelancer with one or two skills whose market demand is at most 25 |
| Ranking.FeaturedFreelancersSpec | freelance_backend/profiles/views.py:464-469 | exactly min(6, eligible) freelancers (rating at least 3, a proposal, the query's completeness at least 60), by descending queried score, rating and completed projects; none left out outranks one kept |
| ServerActions.GetAll | frontend/src/actions/post-project.ts:34 | every value under the name, and only those, in form order |
| ServerActions.Get | frontend/src/actions/post-project.ts:38-43 | null exactly when no entry has the name; otherwise a value stored under it |
| ServerActions.GetIsFirstOfGetAll | frontend/src/actions/post-project.ts:34-43 | a single read returns the first of all values under the name |
| ServerActions.GetAllAppend | frontend/src/actions/post-project.ts:34 | reading all values of two appended forms is reading each in turn |
| ServerActions.GetAppend | frontend/src/actions/post-project.ts:38-43 | a single read of two appended forms finds the first form's value when it has one |
| ServerActions.CollectArrayFields | frontend/src/actions/post-project.ts:71-90 | the error map holds exactly the array-valued fields of the API's answer, with their arrays |
| ServerActions.FormFieldName | frontend/src/actions/apply-to-project.ts:84-90 | proposed_budget becomes proposedBudget, project becomes projectId, and every other name is kept |
| ServerActions.CollectRenamedArrayFields | frontend/src/actions/apply-to-project.ts:76-92 | the error map holds exactly the form names of the array-valued fields, each with the array of a field carrying that name |
| ServerActions.RenamedWithoutClash | frontend/src/actions/apply-to-project.ts:81-92 | when no two API fields share a form name, every array field appears under its form name with its own array |
| ServerActions.FailureDetail | frontend/src/actions/post-project.ts:92-97 | the form error is the answer's detail when that is truthy, and otherwise names the status code |
| ServerActions.ReplyState | frontend/src/actions/post-project.ts:71-126 | success exactly for a 2xx answer, field errors exactly for a 400, a network error exactly when the call threw |
| PostProject.SubmittedSkills | frontend/src/actions/post-project.ts:34 | the skills sent are exactly the non-blank skills entries, in order |
| PostProject.SubmittedBudget | frontend/src/actions/post-project.ts:41 | no budget exactly when the entry is missing or empty; otherwise what `Number` makes of the text, NaN included |
| PostProject.ProjectErrors | frontend/src/actions/post-project.ts:8-15 | a field is reported exactly when the schema rejects it, and nothing is reported exactly when the form is valid; a budget that coerces to NaN is rejected |
| PostProject.NaNBudgetRefused | frontend/src/actions/post-project.ts:41 | a non-empty budget text that `Number` reads as NaN is reported as a budget error |
| PostProject.SkillsFieldOk | frontend/src/actions/post-project.ts:13 | the skills field passes exactly with 1 to 10 kept skills of at most 50 characters |
| PostProject.ProjectRequestFor | frontend/src/actions/post-project.ts:56-69 | the request carries the token only as a bearer header and the validated fields as the body, with a positive budget if any and 1 to 10 skills |
| PostProject.Post | frontend/src/actions/post-project.ts:32-128 | an invalid form is answered with its failed fields and nothing is sent; a valid one sends its request, reports a 400's array fields, and reports success only for a 2xx answer |
| ApplyToProject.BudgetValue | frontend/src/actions/apply-to-project.ts:11 | a missing budget entry coerces to 0, any other entry to what `Number` makes of it, NaN included |
| ApplyToProject.ApplicationErrors | frontend/src/actions/apply-to-project.ts:8-14 | a field is reported exactly when the schema rejects it, and nothing exactly when the form is valid; a budget that coerces to NaN is rejected |
| ApplyToProject.NaNBudgetRefused | frontend/src/actions/apply-to-project.ts:11 | a budget entry that coerces to NaN is reported as a budget error |
| ApplyToProject.MissingBudgetRefused | frontend/src/actions/apply-to-project.ts:11 | a form without a budget entry is always refused for its budget |
| ApplyToProject.ProposalFor | frontend/src/actions/apply-to-project.ts:50-71 | the proposal carries the parsed project id, message, timeline and a positive budget, and the token only as a bearer header |
| ApplyToProject.Apply | frontend/src/actions/apply-to-project.ts:30-135 | an invalid form sends nothing; a valid one sends its proposal, reports a 400's array fields under the form's names, and reports success only for a 2xx answer |
| UpdateProfile.UpdateErrors | frontend/src/actions/update-profile.ts:8-14 | a field is reported exactly when the schema rejects it; missing bio, skills or rate entries are rejected |
| UpdateProfile.UpdateFor | frontend/src/actions/update-profile.ts:49-69 | the update carries name and bio, the skills text split on commas with every item trimmed and non-empty, and no rate (null in the JSON) exactly when the rate text is empty or `parseFloat` reads it as NaN |
| UpdateProfile.JoinedSkillsReachApi | frontend/src/actions/update-profile.ts:55 | a list of trimmed skills written joined by ", " reaches the API as the same list |
| UpdateProfile.Update | frontend/src/actions/update-profile.ts:29-125 | an invalid form sends nothing; a valid one sends its update, reports a 400's array fields, and reports success only for a 2xx answer |
| Text.Trim | frontend/src/actions/update-profile.ts:55 | `String.prototype.trim` removes the leading and trailing white space and nothing else: the result has no white space at either end and the input is the result surrounded by white space only |
| Text.PyStrip | freelance_backend/projects/models.py:25-26 | Python's `str.strip`, which the serializers apply to text fields, removes the surrounding Python white space and nothing else: the result has none at either end and the input is the result surrounded by it |
| Text.TrimIdempotent | frontend/src/actions/update-profile.ts:55 | trimming an already trimmed string changes nothing |
| Text.BlankIffAllSpace | frontend/src/actions/post-project.ts:34 | `s.trim() !== ''` fails exactly when every character of `s` is white space |
| Text.JoinSplit | freelance_backend/profiles/views.py:80 | splitting on a non-empty separator and joining the pieces back with it gives the original string |
| Text.ParseCommaList | frontend/src/actions/update-profile.ts:55 | split on `,`, trim, drop empties: every resulting skill is non-empty, trimmed and free of commas |
| Text.CommaListRoundTrip | frontend/src/components/profile/profile-edit-form.tsx:48-72 | skills shown joined by ", " parse back to exactly the same list, when each is non-empty, trimmed and comma-free |
| Text.NatToString | freelance_backend/profiles/models.py:8 | a user id renders as a non-empty run of decimal digits |
| Text.DigitsRoundTrip | freelance_backend/profiles/models.py:8 | reading the rendered digits back yields the same number |
| ProfileInput.SkillsFromText | frontend/src/components/profile/profile-edit-form.tsx:72 | the typed skills text yields a list of non-empty, trimmed, comma-free skills, empty for empty text |
| ProfileInput.EmptyGuardRedundant | frontend/src/components/profile/profile-edit-form.tsx:72 | the `values.skills ? … : []` guard gives the same list the parse alone gives |
| ProfileInput.SkillsTextRoundTrip | frontend/src/components/profile/profile-edit-form.tsx:48-72 | a stored skills list shown in the form and submitted unchanged reaches the server as the same list |
| ProfileInput.RateFromText | frontend/src/components/profile/profile-edit-form.tsx:73 | the hourly rate is null exactly for empty text or text `parseFloat` reads as NaN, and otherwise its parsed number |
| ProfileInput.RateText | frontend/src/components/profile/profile-edit-form.tsx:49 | a missing rate shows as empty text, a present one as its own text |
| ProfileInput.RateRoundTrip | frontend/src/components/profile/profile-edit-form.tsx:49-73 | a missing rate submits as null; a non-empty stored rate submits as its parsed value |
| ProfileEditForm.Defaults | frontend/src/components/profile/profile-edit-form.tsx:43-51 | with no profile loaded every field starts empty |
| ProfileEditForm.FormErrors | frontend/src/components/profile/profile-edit-form.tsx:27-34 | a field is reported exactly when its schema check fails (name 2 to 50 characters, bio at most 500), and the form submits exactly when nothing is reported |
| ProfileEditForm.SubmitPayload | frontend/src/components/profile/profile-edit-form.tsx:69-74 | name and bio are sent as typed, skills as a clean list (empty for empty text), the rate as null for empty text and otherwise as `parseFloat` reads it (NaN, sent as null, included) |
| ProfileEditForm.NoProfileBlocksSubmit | frontend/src/components/profile/profile-edit-form.tsx:43-51 | before a profile loads, the form refuses to submit and only the name is reported |
| ProfileEditForm.PrefillValidity | frontend/src/components/profile/profile-edit-form.tsx:27-51 | the pre-filled form submits exactly when the stored name has 2 to 50 characters and the stored bio at most 500 |
| ProfileEditForm.PrefillSubmitsStored | frontend/src/components/profile/profile-edit-form.tsx:43-74 | submitting the pre-filled form unchanged sends back the stored name, bio, skills and (parsed) rate |
| ProfileEditForm.ReplyToast | frontend/src/components/profile/profile-edit-form.tsx:76-100 | success is shown exactly when the reply carries no error; otherwise the server's error, or the fixed message when the call threw |
| ProfileEditForm.EditForm.constructor | frontend/src/components/profile/profile-edit-form.tsx:41-51 | the form starts from the profile's defaults and not loading |
| ProfileEditForm.EditForm.ProfileChanged | frontend/src/components/profile/profile-edit-form.tsx:53-63 | a newly loaded profile resets the fields to its defaults; a missing one leaves them as they are |
| ProfileEditForm.EditForm.Submit | frontend/src/components/profile/profile-edit-form.tsx:65-104 | invalid fields send nothing; valid ones send the payload, show the reply's toast, refresh the profile exactly on success and end loading |
| ProfileEditPage.PayloadFor | frontend/src/app/profile/edit/page.tsx:113-118 | bio and location are sent with only their surrounding white space removed, the rate null for empty text and otherwise as `parseFloat` reads it (NaN, sent as null, included), the skills as listed |
| ProfileEditPage.PayloadStable | frontend/src/app/profile/edit/page.tsx:114-115 | saving what was just saved sends the same payload again |
| ProfileEditPage.DashboardFor | frontend/src/app/profile/edit/page.tsx:129-133 | freelancers go back to the freelancer dashboard, everyone else to the client dashboard |
| ProfileEditPage.EditPage.constructor | frontend/src/app/profile/edit/page.tsx:46-55 | the page starts loading with empty fields and an empty skill list capped at the page's limit |
| ProfileEditPage.EditPage.FetchProfile | frontend/src/app/profile/edit/page.tsx:63-91 | a loaded profile fills bio, location, rate text and skills (missing values as empty); a failed load keeps the fields; loading ends either way |
| ProfileEditPage.EditPage.HandleSave | frontend/src/app/profile/edit/page.tsx:110-151 | the save sends the payload of the current fields and redirects to the role's dashboard exactly when the server answered with data |
| ProfileEditPage.EditPage.Preview | frontend/src/app/profile/edit/page.tsx:260-273 | the preview shows the first skills up to the limit and a "more" badge exactly when some are left over |
| SkillEditor.AddSkill | frontend/src/components/projects/post-project-form.tsx:100-110 | the list grows by one, appending the trimmed input, exactly when the input is non-blank, new and the list is below its cap; nothing already there is lost |
| SkillEditor.RemoveSkill | frontend/src/components/projects/post-project-form.tsx:112-116 | every copy of the removed skill disappears, every other skill stays, and nothing is added |
| SkillEditor.AddKeepsWellFormed | frontend/src/components/projects/post-project-form.tsx:100-110 | adding keeps the list duplicate-free, trimmed, non-blank and within its cap |
| SkillEditor.RemoveKeepsWellFormed | frontend/src/components/projects/post-project-form.tsx:112-116 | removing keeps the list duplicate-free, trimmed, non-blank and within its cap |
| SkillEditor.AddThenRemove | frontend/src/components/projects/post-project-form.tsx:100-116 | removing a skill just added restores the previous list |
| SkillEditor.FullListRefuses | frontend/src/components/projects/post-project-form.tsx:107-109 | a list at its cap accepts nothing more |
| SkillEditor.SkillList.Add | frontend/src/app/profile/edit/page.tsx:93-104 | the list becomes the result of adding the input, the input clears exactly when it was accepted, the limit warning shows exactly when a full list refused it, and well-formedness is kept |
| SkillEditor.SkillList.Remove | frontend/src/app/profile/edit/page.tsx:106-108 | the list loses the skill, the input is untouched and well-formedness is kept |
| Display.TimeAgo | frontend/src/app/client/dashboard/page.tsx:140-150 | under an hour is "Just now", under a day whole hours, under a week whole days, older a date; the count shown is the floor of the elapsed time |
| Display.TimeAgoMonotone | frontend/src/app/client/dashboard/page.tsx:140-150 | an older timestamp never gets a more recent label |
| Display.FutureIsJustNow | frontend/src/app/client/dashboard/page.tsx:143-145 | a timestamp in the future reads "Just now" |
| Display.CeilDays | frontend/src/components/home/featured-projects.tsx:64 | the day count is the remaining time rounded up to whole days |
| Display.Deadline | frontend/src/components/home/featured-projects.tsx:61-71 | overdue once a full day has passed, "today" within the last day, "tomorrow" within the next, "in n days" up to six days (n rounded up), else a date |
| Display.WithinADayIsTomorrow | frontend/src/components/home/featured-projects.tsx:64-68 | a deadline less than a day away reads "Due tomorrow", even later the same day |
| Display.JustPassedIsToday | frontend/src/components/home/featured-projects.tsx:64-67 | a deadline passed less than a day ago reads "Due today", not overdue |
| Display.SkillBadges | frontend/src/app/projects/page.tsx:125-135 | the first skills up to the limit are shown in order, and a "+n more" badge exactly when skills are left over, n being how many |
| Display.BadgesCoverSkills | frontend/src/app/projects/page.tsx:125-135 | shown badges plus the "more" count account for every skill |
| Display.ProjectStatusColor | frontend/src/app/client/dashboard/page.tsx:152-160 | grey exactly for a status outside open, in progress, completed and cancelled |
| Display.ProposalStatusColor | frontend/src/app/client/dashboard/page.tsx:162-169 | yellow exactly for pending, green exactly for accepted, red exactly for rejected, grey for anything else |
| Display.CategoryLabel | frontend/src/app/projects/page.tsx:107 | an unknown category shows its raw value; a known one shows the caption of its first option when that caption is non-empty |
| ProjectForm.FormErrors | frontend/src/components/projects/post-project-form.tsx:31-42 | a field is reported exactly when its schema check fails, and the form submits exactly when nothing is reported |
| ProjectForm.EditorSkillsPassSchema | frontend/src/components/projects/post-project-form.tsx:40 | a list built by the skill editor passes the skills check exactly when it is non-empty |
| ProjectForm.SkillEntriesRoundTrip | frontend/src/components/projects/post-project-form.tsx:140 | appending each skill as a `skills` entry lets `getAll('skills')` read back the same list |
| ProjectForm.HandleFormSubmit | frontend/src/components/projects/post-project-form.tsx:119-144 | nothing happens without a user and profile, a missing token is reported, otherwise the form entries are dispatched |
| ProjectForm.FormEnabledOnlyForClients | frontend/src/components/projects/post-project-form.tsx:148 | the form is enabled exactly when authentication has finished and the user is a client |
| ProjectForm.ActionReadsForm | frontend/src/components/projects/post-project-form.tsx:133-141 | the server action reads back the title, description, category, token, skills and budget the form put in (a zero or NaN budget reads as none) |
| ProjectForm.ValidFormValidForAction | frontend/src/components/projects/post-project-form.tsx:30-42 | every form the client schema accepts also passes the server action's schema |
| ProjectForm.ReadValuesValid | frontend/src/actions/post-project.ts:8-15 | form data whose read values meet each field's bounds passes the server action's schema |
| ProjectForm.ValidFormPassesAction | frontend/src/components/projects/post-project-form.tsx:30-42 | a valid form yields no server-side errors and a request carrying the bearer token and exactly the typed title, description, category, budget and skills |
| SignupForm.InitialRole | frontend/src/components/auth/signup-form.tsx:53 | the freelancer radio is pre-selected exactly for `?role=freelancer`; anything else, or no parameter, pre-selects client |
| SignupForm.SignupErrors | frontend/src/components/auth/signup-form.tsx:25-44 | a field is reported exactly when its check fails (name at least 2, valid e-mail, passwords at least 6, a client or freelancer role, confirmation matching), and the form submits exactly when nothing is reported |
| SignupForm.ValidMeansMatching | frontend/src/components/auth/signup-form.tsx:32-44 | a form that submits has matching passwords of at least 6 characters and a client or freelancer role |
| SignupForm.MismatchReported | frontend/src/components/auth/signup-form.tsx:41-44 | with a valid role, differing passwords are always reported on the confirmation field |
| SignupForm.MismatchHiddenByBadRole | frontend/src/components/auth/signup-form.tsx:38-44 | with a role outside the two choices only the role is reported, even when the passwords differ |
| SignupForm.DefaultsNotSubmittable | frontend/src/components/auth/signup-form.tsx:56-65 | the pre-filled form reports its empty name and never its role |
| SignupForm.RegisterPayload | frontend/src/components/auth/signup-form.tsx:72-79 | the registration body carries the typed fields, the confirmation as `password_confirm`, and the e-mail also as username |
| SignupForm.SubmittedFormCreatesUser | frontend/src/components/auth/signup-form.tsx:72-81 | a submitted form whose e-mail is unused as e-mail and as username and within the length limits creates a client or freelancer (never an admin) whose e-mail and username are the typed e-mail, client exactly when "client" was chosen |
| SignupForm.DashboardFor | frontend/src/components/auth/signup-form.tsx:89-94 | clients go to the client dashboard, every other role to the freelancer dashboard |
| SignupForm.ResultToast | frontend/src/components/auth/signup-form.tsx:83-108 | success is shown exactly for a successful answer; a failure shows the answer's error when non-empty, else the fixed registration message; an exception shows the fixed unexpected-error message |
| SignupForm.Signup.constructor | frontend/src/components/auth/signup-form.tsx:48-65 | the form starts from the defaults for the role parameter and not loading |
| SignupForm.Signup.Submit | frontend/src/components/auth/signup-form.tsx:67-112 | invalid fields send nothing; valid ones send the payload, show the answer's toast, redirect by role exactly on success, and end loading |
| ChatUi.OtherUser | frontend/src/components/messaging/enhanced-messaging.tsx:211-213 | a client sees the conversation's freelancer; any other viewer, or none, sees its client |
| ChatUi.FilteredConversations | frontend/src/components/messaging/enhanced-messaging.tsx:215-220 | a conversation is listed exactly when the other party's lower-cased full name or e-mail contains the lower-cased search term, and nothing is listed that was not there |
| ChatUi.FilterKeepsOrder | frontend/src/components/messaging/enhanced-messaging.tsx:215-220 | filtering a list in two parts gives the two filtered parts one after the other, so the order is kept |
| ChatUi.EmptySearchKeepsAll | frontend/src/components/messaging/enhanced-messaging.tsx:215-220 | an empty search shows every conversation in order |
| ChatUi.AvatarAfterAppend | frontend/src/components/messaging/enhanced-messaging.tsx:392 | a newly received message leaves the earlier avatars unchanged and shows its own exactly when the previous message came from someone else |
| ChatUi.FindById | frontend/src/components/messaging/enhanced-messaging.tsx:109-111 | the first conversation with the id, and none exactly when no conversation has it |
| ChatUi.Chat.constructor | frontend/src/components/messaging/enhanced-messaging.tsx:73-79 | the view starts loading with no conversations, nothing selected, no messages and empty inputs |
| ChatUi.Chat.FetchConversations | frontend/src/components/messaging/enhanced-messaging.tsx:101-129 | a list reply replaces the conversations (anything else clears them); the open conversation's messages refresh from the list in the full component; loading ends |
| ChatUi.Chat.OpenConversation | frontend/src/components/messaging/enhanced-messaging.tsx:131-146 | a reply with data selects that conversation and shows its messages (none when it has none); otherwise nothing changes, and a thrown call shows a toast in the full component |
| ChatUi.Chat.SendMessage | frontend/src/components/messaging/enhanced-messaging.tsx:148-170 | blank text, no open conversation or a send in flight does nothing; otherwise the text goes to the open conversation, a reply with data is appended, the input cleared and the list refetched, and sending ends |
| ChatUi.Chat.SetSearchTerm | frontend/src/components/messaging/enhanced-messaging.tsx:79 | only the search term changes |
| ChatUi.Chat.ShownConversations | frontend/src/app/messaging/page.tsx:185-192 | the full component lists the filtered conversations; the simple page lists every conversation |
| DashboardData.OrZero | frontend/src/app/client/dashboard/page.tsx:100 | `p.budget \|\| 0`: a missing budget, and an empty-text one, count as the number 0; any other budget is kept as it arrived |
| DashboardData.JsPlus | frontend/src/app/client/dashboard/page.tsx:100 | JavaScript `+`: two numbers add, and the result is text exactly when either side is text |
| DashboardData.BudgetValue | frontend/src/app/client/dashboard/page.tsx:98-100 | the amount a budget stands for: 0 when missing, the number itself, or the numeric value of its text |
| DashboardData.BudgetTotalAppend | frontend/src/app/client/dashboard/page.tsx:98-100 | the intended total of two lists of budgets is the sum of their totals |
| DashboardData.AsWrittenSumsNumbers | frontend/src/app/client/dashboard/page.tsx:98-100 | while every budget arrives as a number, the page's reduce yields the intended total |
| DashboardData.TextBudgetsConcatenate | frontend/src/app/client/dashboard/page.tsx:98-100 | budgets that arrive as decimal text are concatenated, not added: "100.00" and "50.00" give "0100.0050.00" |
| DashboardData.Gate | frontend/src/app/client/dashboard/page.tsx:78-84 | a signed-in user with the page's role loads the data, a signed-in user with any other role (or none yet) is sent to the other dashboard, and a signed-out visitor stays |
| DashboardData.ShownIffLoaded | frontend/src/app/client/dashboard/page.tsx:78-84 | each dashboard shows its content exactly when it loads its data |
| DashboardData.OtherRolesBounce | frontend/src/app/freelancer/dashboard/page.tsx:87-93 | a signed-in admin, or a user whose profile has not loaded, is sent from each dashboard to the other |
| ClientDashboard.ActiveProjects | frontend/src/app/client/dashboard/page.tsx:95-97 | the number of open or in-progress projects, all of them exactly when every project is active |
| ClientDashboard.SpentGrows | frontend/src/app/client/dashboard/page.tsx:98-100 | one more project adds its budget to the total spent exactly when it is completed |
| ClientDashboard.SpentAsWrittenOnNumbers | frontend/src/app/client/dashboard/page.tsx:98-100 | with numeric budgets the page shows exactly the total spent |
| ClientDashboard.RecentIds | frontend/src/app/client/dashboard/page.tsx:110 | the ids of the first three projects, in order |
| ClientDashboard.FlattenLength | frontend/src/app/client/dashboard/page.tsx:116-124 | the gathered proposals are as many as the answered lists hold together |
| ClientDashboard.FlattenSnoc | frontend/src/app/client/dashboard/page.tsx:116-124 | one more answer adds its proposals at the end, a missing one adds nothing |
| ClientDashboard.CollectProposals | frontend/src/app/client/dashboard/page.tsx:116-124 | the loop gathers every answered list in order and counts them all |
| ClientDashboard.FirstFive | frontend/src/app/client/dashboard/page.tsx:126 | the first five gathered proposals, in order |
| ClientDashboard.ClientDashboardPage.constructor | frontend/src/app/client/dashboard/page.tsx:68-76 | the page starts loading with no projects, no proposals and zero statistics |
| ClientDashboard.ClientDashboardPage.FetchDashboardData | frontend/src/app/client/dashboard/page.tsx:86-137 | a project list sets the projects, their count, the active count and the total spent, asks for proposals of the first three, and shows the first five gathered and their total unless a request threw; otherwise nothing changes; loading ends |
| FreelancerDashboard.RateShown | frontend/src/app/freelancer/dashboard/page.tsx:320 | the hourly rate as the API sent it when it is truthy in JavaScript (so the decimal text "0.00" is shown), else 50 |
| FreelancerDashboard.ZeroRateTextShown | frontend/src/app/freelancer/dashboard/page.tsx:320 | a zero rate sent as the text "0.00" is shown as is, while the number 0 shows 50 |
| FreelancerDashboard.EarningsAsWrittenOnNumbers | frontend/src/app/freelancer/dashboard/page.tsx:122-128 | with numeric budgets the page shows exactly the total earnings |
| FreelancerDashboard.EarningsGrow | frontend/src/app/freelancer/dashboard/page.tsx:127 | one more active project adds its budget to the earnings |
| FreelancerDashboard.FreelancerDashboardPage.constructor | frontend/src/app/freelancer/dashboard/page.tsx:75-85 | the page starts loading with no profile, empty lists and zero statistics |
| FreelancerDashboard.FreelancerDashboardPage.FetchDashboardData | frontend/src/app/freelancer/dashboard/page.tsx:95-140 | when no request threw, each answer with data replaces its part (the proposal count, active count and earnings with it) and the others are kept; a thrown request changes nothing; the open-projects query is limit 5, status open; loading ends |
| FreelancerDashboard.FreelancerDashboardPage.SkillRow | frontend/src/app/freelancer/dashboard/page.tsx:329-342 | the skill row appears exactly when the profile has skills, showing the first six and a "more" badge for the rest |
| ProjectsPage.ProjectsQueryParams | frontend/src/app/projects/page.tsx:57-65 | each parameter (search, category, status) is sent exactly when its input restricts the list, with that input as value, in that fixed order |
| ProjectsPage.ClearedQueryIsEmpty | frontend/src/app/projects/page.tsx:209-211 | after "clear filters" the request carries no parameters |
| ProjectsPage.CardSkills | frontend/src/app/projects/page.tsx:125-136 | a card shows a skill row exactly when the project has skills: the first four and a count of the rest |
| ProjectsPage.ListedCategoryShowsCaption | frontend/src/app/projects/page.tsx:107 | with distinct option values, every listed category shows its own caption |
| ProjectsPage.KnownCategoryShowsCaption | frontend/src/app/projects/page.tsx:41-51 | "web-development" shows "Web Development" and "all" shows "All Categories" |
| ProjectsPage.UnknownCategoryShownRaw | frontend/src/app/projects/page.tsx:107 | a category outside the list is shown as its raw value |
| ProjectsPage.ProposalsShown | frontend/src/components/home/featured-projects.tsx:128 | a card shows the project's proposal count, 0 when absent |
| ProjectsPage.FeaturedDeadline | frontend/src/components/home/featured-projects.tsx:107 | a card with a deadline shows its deadline label for the time remaining; without one the label is a date (which renders as an invalid date) |
| ProjectsPage.ProjectsList.constructor | frontend/src/app/projects/page.tsx:35-39 | the page starts loading with no projects, an empty search and both filters at "all" |
| ProjectsPage.ProjectsList.FetchProjects | frontend/src/app/projects/page.tsx:57-72 | the request carries the current filters; an answer replaces the list (empty without data), a thrown request keeps it; loading ends |
| ProjectsPage.ProjectsList.SetFilters | frontend/src/app/projects/page.tsx:179-195 | the search and filters take the chosen values and nothing else changes |
| ProjectsPage.ProjectsList.ClearFilters | frontend/src/app/projects/page.tsx:209-211 | the search is emptied and both filters return to "all", so the next request has no parameters |
| ProjectsPage.FeaturedList.constructor | frontend/src/components/home/featured-projects.tsx:30-31 | the section starts loading with no projects |
| ProjectsPage.FeaturedList.FetchProjects | frontend/src/components/home/featured-projects.tsx:33-47 | the request asks for six open projects; an answer replaces the list (empty without data), a thrown request keeps it; loading ends |
| ImageUpload.CropPlacement | frontend/src/components/profile/profile-image-upload.tsx:83-96 | the image is scaled by one factor so its shorter side is exactly 300 and the other at least 300, and centred, so it never starts inside the canvas |
| ImageUpload.ScaledSideCovers | frontend/src/components/profile/profile-image-upload.tsx:89-93 | a side at least as long as the shorter side scales to at least the canvas size, and the shorter side to exactly it |
| ImageUpload.CropCoversCanvas | frontend/src/components/profile/profile-image-upload.tsx:84-100 | the drawn image keeps the aspect ratio and covers the whole 300 by 300 canvas |
| ImageUpload.SquareFillsExactly | frontend/src/components/profile/profile-image-upload.tsx:89-96 | a square image is drawn exactly onto the canvas with no offset |
| ImageUpload.JpegDataUrlParses | frontend/src/components/profile/profile-image-upload.tsx:103-124 | the JPEG data URL the uploader sends is read by the profile update as the same payload with extension jpeg |
| ImageUpload.UpdatedImage | frontend/src/components/profile/profile-image-upload.tsx:136-137 | the callback gets `avatar_url` when non-empty, else `avatar` when non-empty, and is not called when both are empty |
| ImageUpload.ImageUploader.constructor | frontend/src/components/profile/profile-image-upload.tsx:24-27 | nothing is selected, no preview is shown and no upload runs |
| ImageUpload.ImageUploader.HandleFileSelect | frontend/src/components/profile/profile-image-upload.tsx:32-65 | a file is selected exactly when it is a JPEG, PNG or WebP image of at most 5 MB, otherwise the selection is kept, so a selected file has always passed those checks |
| ImageUpload.ImageUploader.PreviewLoaded | frontend/src/components/profile/profile-image-upload.tsx:60-63 | the read data URL becomes the preview and the preview is shown |
| ImageUpload.ImageUploader.HandleUpload | frontend/src/components/profile/profile-image-upload.tsx:112-160 | with no file nothing happens; otherwise the cropped JPEG is sent with the file's name, an answer without a non-empty error clears the selection and preview, a non-empty error keeps them, and uploading ends |
| ImageUpload.ImageUploader.HandleCancel | frontend/src/components/profile/profile-image-upload.tsx:162-170 | the selection and preview are cleared |
| VideoUpload.DisplayWidth | frontend/src/components/video-upload.tsx:68 | the canvas is as wide as its parent up to 800, or 600 when the parent has no width |
| VideoUpload.DisplayHeight | frontend/src/components/video-upload.tsx:67-69 | the canvas keeps the video's aspect ratio |
| VideoUpload.FontSize | frontend/src/components/video-upload.tsx:78 | the font is a 35th of the width, kept between 10 and 18 |
| VideoUpload.AnchorFor | frontend/src/components/video-upload.tsx:86-95 | an unknown position draws at the origin, centred |
| VideoUpload.AnchorInside | frontend/src/components/video-upload.tsx:86-95 | for each listed position the text is anchored inside the 10-pixel margin, on the named edges |
| VideoUpload.AnchorsMirror | frontend/src/components/video-upload.tsx:89-93 | left and right anchors mirror each other across the width, top and bottom across the height |
| VideoUpload.WatermarkCanvas.DrawWatermark | frontend/src/components/video-upload.tsx:60-98 | with a loaded video, non-empty text and a context, the canvas takes the computed size (backing store scaled by the pixel ratio), font, opacity, anchor and text; otherwise nothing changes |
| VideoUpload.DefaultTitle | frontend/src/components/video-upload.tsx:160-161 | the suggested title is never empty |
| VideoUpload.DefaultTitleDropsExtension | frontend/src/components/video-upload.tsx:160-161 | a name with an extension is suggested without its last extension |
| VideoUpload.DefaultTitleWithoutDot | frontend/src/components/video-upload.tsx:160-161 | a name without a dot falls back to "Untitled Video" |
| VideoUpload.TicksFromZero | frontend/src/components/video-upload.tsx:203-205 | the simulated progress rises by 10 per tick and stops at 90 |
| VideoUpload.RequestFor | frontend/src/components/video-upload.tsx:192-200 | the request carries the file and the trimmed title, description and category, and tags that are non-empty, trimmed and comma-free |
| VideoUpload.SingleTag | frontend/src/components/video-upload.tsx:199 | text without a comma gives one trimmed tag, or none when blank |
| VideoUpload.VideoUploadForm.constructor | frontend/src/components/video-upload.tsx:30-42 | the form starts empty with no error, no progress and nothing uploaded |
| VideoUpload.VideoUploadForm.HandleFileChange | frontend/src/components/video-upload.tsx:137-167 | the form resets; a non-video is refused with the type error, an over-100-MB video with the size error, an acceptable one is kept with its default title; a kept file is always acceptable |
| VideoUpload.VideoUploadForm.TickProgress | frontend/src/components/video-upload.tsx:203-205 | progress rises by 10 up to 90, never falls, and stays in range |
| VideoUpload.VideoUploadForm.HandleUpload | frontend/src/components/video-upload.tsx:169-241 | without a file and non-blank title, or signed out, nothing is sent; otherwise the request is sent, an answer without a non-empty error marks it uploaded and resets the form, a non-empty error keeps it, and loading and progress reset |
| VideoUpload.VideoUploadForm.FinishUpload | frontend/src/components/video-upload.tsx:207-240 | the answer ends loading and resets progress; unless it carries a non-empty error the upload is marked done and the fields cleared, otherwise they are kept |

## Left out

- Network, session and storage plumbing: `fetch`, the API client, the auth context, `localStorage` and Django's request handling are not modelled. Their answers are parameters (`Reply`, a thrown call, a status code).
- Media work: base64 decoding, image conversion and file storage in the profile update, plus `FileReader`, `drawImage` and `canvas.toDataURL` in the two uploaders. These are external calls. Decoding is an uninterpreted predicate, and the cropped data URL is an input.
- JavaScript built-ins `toLowerCase`, `parseFloat`, `Number` and `parseInt`, and zod's e-mail check, are uninterpreted function parameters. `parseFloat` and `Number` answer None for NaN; Infinity is not told apart from other numbers. No Unicode case folding is modelled.
- Locale rendering (`toLocaleString`, `toLocaleDateString`, `toFixed`) is left abstract: a date label is a constructor, and the rendered text is a parameter.
- Scheduling: the 5-second conversation polling, the `setInterval` progress timer and the animation-frame and resize-observer wiring of the watermark are not modelled. Only the state each step produces is.
- Ranking counts are inputs per freelancer. SQL join effects of the stacked `Count` annotations are not modelled.
- Decimal columns are exact reals. The project serializers' decimal check (Projects.FitsDecimal) refuses a value with more decimal places or whole digits than the column allows, as DRF does; it is applied to the exact value, so a text input such as "12.300", which DRF refuses for its third written decimal place, is seen as 12.3 and accepted.
- Profiles.UpdateMyProfile: the serializer's field validation (lengths, URL format, the rate's precision) is the `valid` parameter, not modelled field by field.
- Accounts.CreateUser: Django's username character validator (letters, digits and @.+-_) and the e-mail format validator are not modelled.
- PostProject.ProjectErrors, ApplyToProject.ApplicationErrors, UpdateProfile.UpdateErrors, ProfileEditForm.FormErrors, ProjectForm.FormErrors and SignupForm.SignupErrors: zod's `min` and `max` count UTF-16 code units, while the model counts characters; the two agree only for text without characters outside the Basic Multilingual Plane.
- ClientDashboard.ClientDashboardPage.FetchDashboardData and FreelancerDashboard.FreelancerDashboardPage.FetchDashboardData store the intended numeric totals (ClientDashboard.TotalSpent, FreelancerDashboard.TotalEarnings). When budgets arrive as decimal text, the pages as written store the joined text that DashboardData.SumAsWritten gives instead (see Findings).
- Ranking.TopScoreBounds, Ranking.Performance and Ranking.FeaturedScore: the 0-100 bounds are proved for ratings on the 0-5 scale. The rating column itself admits values up to 9.99.
- Ranking.TopFreelancersSpec and Ranking.NewcomerFreelancersSpec use the intended completeness, not the query's `skills__len` lookup (see Findings). Ranking.FeaturedFreelancersSpec follows the query: its threshold, its parts and its order use what the query computes.
- ProjectViews.ProjectStore.UpdateProject and DeleteProject: the `PermissionError` the views raise is reported as a 500, the status Django gives an unhandled exception. A duplicate proposal (an `IntegrityError`) is a 500 for the same reason.
- Messaging: `MessageAttachment` (and its non-negative `file_size`) is not modelled, since no modelled view touches attachments. `auto_now` timestamps come from a strictly increasing logical clock.
- ProfileEditPage.EditPage.HandleSave: the `saving` flag and the toasts are not modelled. The method states the payload and the redirect.
- VideoUpload.VideoUploadForm.FinishUpload: the momentary progress of 100 shown before the `finally` block resets it to 0 is not kept.
- Toasts are modelled where a handler's result depends on them (signup, profile form, chat failures) and otherwise left out. So are `console` logging and `revalidatePath`.
- ProjectsPage.ListedCategoryShowsCaption assumes distinct option values. For the page's own list only examples are proved (ProjectsPage.KnownCategoryShowsCaption).
- Django admin modules and reporting, the URL tables, the presentational components, the demos page (a Firestore read) and the apply dialog are not part of this model.
- `ProfileListView`, `MyProfileView` and the `my_profile` endpoint only read profiles; they are not part of this model beyond the visibility and ownership rules they share with the modelled views.

Behaviour the model follows because the code does:

- The watermark width is capped at 800 with a 600 fallback. There is no clamp to the video's intrinsic size. An unknown position draws at the origin, centred (VideoUpload.AnchorFor).
- `updateProfile` reads missing entries as `null`, which zod's `.optional()` rejects. A form without bio, skills or rate therefore fails validation (UpdateProfile.UpdateErrors).
- The signup refinement is skipped when the role is invalid (SignupForm.MismatchHiddenByBadRole).
- "Due today" is also shown for a deadline that passed less than a day ago (Display.JustPassedIsToday).
- The featured-projects cards read `deadline` and `skills_required`, which the backend never sends, so a card shows a date label and no skills (ProjectsPage.FeaturedDeadline).
- The simple messaging page computes the search filter but lists every conversation (ChatUi.Chat.ShownConversations).
- While the conversations are polled, the refreshed messages follow the conversation selected when polling began (ChatUi.Chat.FetchConversations takes it as a parameter).
- An admin, or a user whose profile has not loaded, bounces between the two dashboards (DashboardData.OtherRolesBounce).
- The demo list view returns every demo, private ones included. Only the detail view applies the visibility rule (Profiles.VisibleDemos models that rule).

## Findings

| source | as written | input that shows it | evidently intended | confidence | as-written member | corrected member |
|---|---|---|---|---|---|---|
| freelance_backend/profiles/views.py:384-463 | the featured score adds a market-demand part of up to 30 as queried (four keyword hits and pricing; the diversity bonus never applies) to parts capped at 30, 20, 15 and 10, so the total reaches 105 | rating 5, five proposals completed now, skills react, python, javascript, design and sql, rate 40, a complete profile and two public demos: score 105 | a score within the documented 0-100, with market demand held to its 25 share | high, not executed | Ranking.FeaturedScoreAsWritten, Ranking.FeaturedScoreExceedsHundred | Ranking.FeaturedScore, Ranking.FeaturedScoresAgree |
| freelance_backend/profiles/views.py:160 | `skills__len` on a JSON field is a key lookup of `len`, not a length, so "skills non-empty" (here and at lines 246, 371 and 418) never tests the list | a freshly created profile with no skills: completeness 20 instead of 0; five skills: diversity 0 instead of 10 | completeness and diversity computed from the number of skills | medium, not executed | Ranking.CompletenessAsQueried, Ranking.SkillsLenIsKeyLookup, Ranking.DiversityPointsAsQueried, Ranking.DiversityIsKeyLookup | Ranking.Completeness, Ranking.CompletenessExtremes, Ranking.DiversityPoints |
| frontend/src/app/client/dashboard/page.tsx:98-100 | the total spent (and the freelancer's earnings at frontend/src/app/freelancer/dashboard/page.tsx:122-128) adds budgets with `+`; the API renders decimals as text, so the budgets concatenate | two completed projects with budgets "100.00" and "50.00": total "0100.0050.00" | the numeric sum of the budgets | medium, not executed | DashboardData.SumAsWritten, DashboardData.TextBudgetsConcatenate | ClientDashboard.TotalSpent, ClientDashboard.SpentGrows, FreelancerDashboard.TotalEarnings, FreelancerDashboard.EarningsGrow |
