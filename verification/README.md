# Notification-platform UI: client-side state and derived values in Dafny

This project models the deterministic core of a single-page UI for a
notification platform. A registered client signs in, holds projects (each
with an API key, a sender id and purposes), buys SMS and WhatsApp quota as
memberships, and sends messages. The model covers the following parts:

- **Client-data store** (`ClientSlice`): the `withPurposes` normaliser collapses the two API-key shapes and defaults `IsActive`, `UpdatedAt`, `MetaData` and `purposes`. The store's reducers are modelled as pure state-to-state functions.
- **Legacy client context** (`ClientContext`): its immutable `addProject` and `addPurpose`, and a proof of where the two stores' `addPurpose` agree and where they disagree.
- **Session** (`AuthSlice`, `AuthProvider`, `AuthContext`): the session reducers, the invariant "authenticated exactly when a token and a user are held", and both startup restore paths. Browser storage is a three-key value. `JSON.parse` is a parameter whose result is a parse failure, `null`, or a user.
- **Quota and expiry arithmetic** (`MembershipCard`, `QuotaChart`, `UsageChart`, `Dashboard`): percentages are exact reals. The unguarded card percentage uses JavaScript's results for division by zero (`NaN`, ±Infinity). Days remaining is an integer ceiling over millisecond inputs.
- **Forms and derived display** (`CreateMembership`, `SendSMS`, `ProjectCard`): list toggling, the two-step wizard, plan filtering, request-header defaults and truncation.
- **Admin search filters** (`AdminSearch`) and the API URL builder (`ApiConfig`).

Helper modules: `Js` (undefined/null/value, `??`, truthiness, exact JavaScript numbers), `Text` (ASCII `toLowerCase`, `includes`, `slice`), `Seqs` (`filter` and its laws), `Wrappers` (`Option`) and `BrowserStorage`.

The quota ring (src/components/dashboard/QuotaChart.tsx:19) and the usage bars (src/components/dashboard/UsageChart.tsx:19-24) guard a zero quota total. The membership card (src/components/dashboard/MembershipCard.tsx:24) does not, and the model follows the card; see Findings.

## Model

| member | source | states |
|---|---|---|
| ClientSlice.NormalizeApiKey | src/store/slices/clientSlice.ts:83-84 | An object's `Key` becomes the key, and a missing `Key` gives null. `null` and undefined give null. A plain string passes through unchanged. |
| ClientSlice.WithPurposes | src/store/slices/clientSlice.ts:80-92 | ID, client, name, sender and creation time are copied. `IsActive` defaults to true only when absent, so an explicit false is kept. `UpdatedAt` defaults to `CreatedAt` and `MetaData` to null. `purposes` comes from `purposes`, else `Purposes`, else the empty list. |
| ClientSlice.WithPurposesIdempotent | src/store/slices/clientSlice.ts:80-92 | Normalising a project that is already canonical, written back as a raw record, returns it unchanged. |
| ClientSlice.WithPurposesTwice | src/store/slices/clientSlice.ts:80-92 | A normalised project written back as a raw record normalises to itself. |
| ClientSlice.NormalizeAll | src/store/slices/clientSlice.ts:107 | Same length as the input, and element i is the normalised raw element i. |
| ClientSlice.SetClientData | src/store/slices/clientSlice.ts:98-111 | Replaces the client wholesale and keeps the header fields. An absent `Projects` gives an empty list; otherwise each project is normalised, in order. Loading becomes false and the error is cleared. Memberships are untouched. |
| ClientSlice.SetLoading | src/store/slices/clientSlice.ts:112-114 | Only `loading` changes. |
| ClientSlice.SetError | src/store/slices/clientSlice.ts:115-118 | Records the error and stops loading. The client data and the memberships are untouched. |
| ClientSlice.ClearClientData | src/store/slices/clientSlice.ts:119-123 | No client, not loading, no error; memberships untouched. |
| ClientSlice.AddProject | src/store/slices/clientSlice.ts:124-128 | A no-op without a client. Otherwise there is one more project: the earlier ones are unchanged and the last is the normalised payload. |
| ClientSlice.FindIndex | src/store/slices/clientSlice.ts:134-136 | Returns the index of the FIRST project with the ID, or none exactly when no project has it. |
| ClientSlice.AddPurpose | src/store/slices/clientSlice.ts:129-141 | A no-op without a client or when no project has the ID. Otherwise only the first matching project gains the purpose, at the end of its list. Every other project and the project count are unchanged. |
| ClientSlice.AddPurposeCountsOne | src/store/slices/clientSlice.ts:137-140 | When some project has the ID, the total purpose count across projects rises by exactly one. |
| ClientSlice.SetMemberships | src/store/slices/clientSlice.ts:142-146 | Replaces the list wholesale and clears `membershipLoading` and the error. Client data and `loading` are kept. |
| ClientSlice.SetMembershipLoading | src/store/slices/clientSlice.ts:147-149 | Only `membershipLoading` changes. |
| ClientSlice.AddMembership | src/store/slices/clientSlice.ts:150-152 | Appends exactly one membership at the end; nothing else changes. |
| ClientSlice.NormaliserExample | src/store/slices/clientSlice.ts:104-108 | A client whose one project has an empty `Purposes` list yields one project with `purposes = []`, a null key and the active flag set. |
| ClientContext.AddProject | src/context/ClientContext.tsx:40-47 | A no-op without a client. Otherwise the project is appended at the end, and id, name and description are unchanged. |
| ClientContext.MapAddPurpose | src/context/ClientContext.tsx:53-57 | Keeps length and order. Each project is extended when its ID matches and returned as is otherwise. |
| ClientContext.AddPurpose | src/context/ClientContext.tsx:49-60 | A no-op without a client. Every project whose ID matches gains the purpose at the end, with a missing list read as empty. Non-matching projects, the count and the other client fields are unchanged. |
| ClientContext.AddPurposeNoMatch | src/context/ClientContext.tsx:53-57 | If no project matches, the result equals the input client. |
| ClientContext.AddPurposeStoresAgreeOnUniqueIds | src/context/ClientContext.tsx:53-57 | With unique project IDs, the store's first-match update and the context's every-match update give the same IDs and purpose lists. |
| ClientContext.AddPurposeStoresDisagreeOnDuplicateIds | src/context/ClientContext.tsx:53-57 | Take two projects that share an ID. The context extends the second; the store does not. |
| Dashboard.DashboardStats | src/pages/Dashboard.tsx:73-112 | No stats without a client. "Total Projects" and "API Keys" both equal the project count, and "Total Purposes" is the `totalPurposes` fold over the client's projects. |
| Dashboard.TotalPurposes | src/pages/Dashboard.tsx:44-47 | No single project has more purposes than the total, and the total is 0 exactly when every project has no purposes (a missing list counting as none). |
| Dashboard.DashboardStatsReorder | src/pages/Dashboard.tsx:44-47 | Two clients whose projects are the same up to order get identical stat cards. |
| Dashboard.DashboardStatsAfterAddPurpose | src/pages/Dashboard.tsx:44-47 | After the context's `addPurpose`, the project and API-key cards are unchanged and the purpose card rises by the number of projects with that ID. |
| Dashboard.TotalPurposesPermutation | src/pages/Dashboard.tsx:44-47 | `totalPurposes` is invariant under any reordering of the projects. |
| Dashboard.TotalPurposesRemove | src/pages/Dashboard.tsx:44-47 | Removing one project lowers `totalPurposes` by exactly that project's purpose count, a missing list counting 0. |
| Dashboard.AddPurposeRaisesTotal | src/pages/Dashboard.tsx:44-47 | The context's `addPurpose` raises `totalPurposes` by the number of projects with that ID. |
| Dashboard.AddPurposeRaisesClientTotal | src/pages/Dashboard.tsx:44-47 | The same, stated on whole clients. |
| AuthSlice.Initial | src/store/slices/authSlice.ts:17-23 | User, token and client id are null, the session is not authenticated, loading is true, and the invariant holds. |
| AuthSlice.LoginSuccess | src/store/slices/authSlice.ts:29-35 | Stores exactly the payload's token, client id and user; authenticated, not loading. The invariant holds when the payload carries a user. |
| AuthSlice.Logout | src/store/slices/authSlice.ts:36-42 | Clears token, client id and user. Not authenticated, not loading, consistent. |
| AuthSlice.SetLoading | src/store/slices/authSlice.ts:43-45 | Only `loading` changes, so the invariant is kept. |
| AuthSlice.InitializeAuth | src/store/slices/authSlice.ts:46-52 | Produces the same state as `loginSuccess`. |
| AuthSlice.InitializeAuthIgnoresPriorState | src/store/slices/authSlice.ts:46-52 | The result does not depend on the prior state. |
| AuthSlice.LogoutIdempotent | src/store/slices/authSlice.ts:36-42 | `logout` is idempotent and forgets the prior state entirely. |
| AuthSlice.Reduce | src/store/slices/authSlice.ts:29-52 | Each action keeps the invariant when its payload carries a user. `setLoading` changes only loading; every other action ends loading. The result is authenticated iff the action logs in or initialises, or only sets loading on an authenticated state. |
| AuthSlice.ReduceAll | src/store/slices/authSlice.ts:17-52 | No actions leave the state unchanged. A sequence ending in `logout` ends logged out whatever came before, and one ending in anything but `setLoading` ends not loading. |
| AuthSlice.ReduceAllConsistent | src/store/slices/authSlice.ts:17-52 | Every sequence of reducer actions keeps "authenticated iff token and user present", provided each login/initialise payload carries a user. |
| AuthProvider.Startup | src/components/AuthProvider.tsx:14-35 | If any key is missing or empty, only `setLoading(false)` is dispatched and storage is untouched. A parse failure clears all three keys and dispatches only `setLoading(false)`. Otherwise `initializeAuth` is dispatched with the stored token and client id and the parsed value. |
| AuthProvider.StartupRestoresOnlyWhenValid | src/components/AuthProvider.tsx:18-25 | `initializeAuth` is dispatched iff all three keys are present and non-empty and the user parses. |
| AuthProvider.StartupStopsLoading | src/components/AuthProvider.tsx:18-35 | On every path, `loading` is false after startup. |
| AuthProvider.StartupKeepsStoredCredentials | src/components/AuthProvider.tsx:21-25 | A restored session holds the stored token and client id unchanged and the parsed user, and is authenticated. |
| AuthProvider.StartupNullUserBreaksInvariant | src/components/AuthProvider.tsx:20-25 | With stored user data `"null"`, the session ends authenticated with no user, violating the invariant. |
| AuthProvider.StartupChecked | src/components/AuthProvider.tsx:18-35 | The corrected startup. It agrees with the original except that a `null` parse result is handled like a parse failure. Every dispatched payload carries a user. |
| AuthProvider.StartupCheckedConsistent | src/components/AuthProvider.tsx:18-35 | After the corrected startup, the invariant holds and loading is false on every path. |
| AuthContext.Restore | src/context/AuthContext.tsx:33-49 | Loading ends false on every path, and `client_id` is never read or touched. Restore is attempted only when token and user data are both stored. The token is set before parsing. A parse failure keeps the prior user and removes both keys. |
| AuthContext.Logout | src/context/AuthContext.tsx:97-102 | Nulls user and token and removes both keys, so the session is not authenticated afterwards. |
| AuthContext.IsAuthenticated | src/context/AuthContext.tsx:111 | Authenticated implies a user and a token. An empty token never authenticates; a user with a non-empty token always does. |
| AuthContext.RestoreAuthenticatesIff | src/context/AuthContext.tsx:38-45 | After mount, the session is authenticated iff token and user data were stored and the user parsed to an object. |
| AuthContext.RestoreParseFailureKeepsToken | src/context/AuthContext.tsx:40-45 | After a parse failure the token stays set but the session is not authenticated, and both keys are removed. |
| CreateMembership.RemoveAll | src/pages/CreateMembership.tsx:107 | Removes every occurrence of the id. Every other id keeps its order (a subsequence) and its exact number of occurrences. |
| CreateMembership.Toggle | src/pages/CreateMembership.tsx:104-108 | A present id is removed (all occurrences); an absent id is appended at the end. The id is in the result iff it was not in the input, and other ids' membership is unchanged. |
| CreateMembership.ToggleKeepsNoDuplicates | src/pages/CreateMembership.tsx:117-122 | Toggling keeps a duplicate-free list duplicate-free. |
| CreateMembership.ToggleTwiceRestores | src/pages/CreateMembership.tsx:117-122 | Toggling an absent id twice restores the exact list. |
| CreateMembership.ToggleMembership | src/pages/CreateMembership.tsx:104-115 | Toggles the type, empties the selected plans and clears the error; the wizard stays valid. |
| CreateMembership.TogglePlan | src/pages/CreateMembership.tsx:117-124 | Toggles the plan, clears the error and keeps the types; the wizard stays valid. |
| CreateMembership.ValidateStep1 | src/pages/CreateMembership.tsx:86-93 | Passes iff a type is selected. On failure it records the type message, on success it clears the error. |
| CreateMembership.ValidateStep2 | src/pages/CreateMembership.tsx:95-102 | Fails exactly when no plan is selected, recording the plan message. |
| CreateMembership.NextStep | src/pages/CreateMembership.tsx:167-171 | Moves 1→2 only when a type is selected, and does nothing outside step 1. With none selected it only records the message. The step stays in {1, 2}. |
| CreateMembership.PrevStep | src/pages/CreateMembership.tsx:173-178 | Decrements and clears the error only when the step is above 1. From a valid wizard it lands on step 1. |
| CreateMembership.PlansForTypes | src/pages/CreateMembership.tsx:74-76 | An order-preserving subsequence. A plan whose lower-cased channel is among the selected types keeps all its occurrences; every other plan has none. |
| CreateMembership.PlansOnChannel | src/pages/CreateMembership.tsx:180-181 | An order-preserving subsequence. Plans whose lower-cased channel equals the given one keep all their occurrences; all other plans are dropped. |
| CreateMembership.ChannelPlansPartition | src/pages/CreateMembership.tsx:180-181 | No plan is in both the SMS and the WhatsApp lists, and a plan on any other channel is in neither. |
| CreateMembership.SubmissionPayload | src/pages/CreateMembership.tsx:132-135 | One entry per selected plan, in the same order, each carrying the session client id. |
| CreateMembership.HandleSubmit | src/pages/CreateMembership.tsx:126-135 | As written: clears the error and always posts a list with one entry per selected plan, in order. |
| CreateMembership.SubmitWithoutPlansPostsEmpty | src/pages/CreateMembership.tsx:126-135 | With no plan selected, submit still posts, with an empty list. |
| CreateMembership.HandleSubmitChecked | src/pages/CreateMembership.tsx:95-102 | The corrected submit: posts iff a plan is selected, and then exactly what the original posts. With no plan it posts nothing and records the plan message. |
| CreateMembership.SubmitCheckedNeverPostsEmpty | src/pages/CreateMembership.tsx:95-102 | The corrected submit never posts an empty list, agrees with the original whenever a plan is selected, and otherwise reports the missing plan. |
| MembershipCard.CeilDiv | src/components/dashboard/MembershipCard.tsx:26-28 | The result r is the ceiling: (r−1)·d < x ≤ r·d, including negative x. |
| MembershipCard.DaysRemaining | src/components/dashboard/MembershipCard.tsx:25-28 | The ceiling of (validTill − now) in days, rounding toward +∞ for past dates too. |
| MembershipCard.QuotaPercentage | src/components/dashboard/MembershipCard.tsx:24 | used/total×100 with no guard. A positive total gives the ring's value; a zero total gives +Infinity, NaN or −Infinity by the sign of `used`. |
| MembershipCard.RemainingQuota | src/components/dashboard/MembershipCard.tsx:190 | Equals the ring's unclamped remaining value, and is negative iff used exceeds total. |
| MembershipCard.IsExpiring | src/components/dashboard/MembershipCard.tsx:29 | Seven days or fewer is always expiring. With a positive total: expiring iff days ≤ 7 or the ring's percentage ≥ 90. With a zero total: expiring iff days ≤ 7 or any quota was used (the +Infinity case). |
| MembershipCard.StatusActive | src/components/dashboard/MembershipCard.tsx:107 | Active iff the status has six characters that lower-case to "active" one by one. |
| MembershipCard.Channel | src/components/dashboard/MembershipCard.tsx:31-41 | SMS styling iff the plan exists and its lower-cased channel is "sms". Anything else, including a missing plan, gets WhatsApp styling. |
| MembershipCard.Tier | src/components/dashboard/MembershipCard.tsx:164-170 | Red iff ≥ 90, yellow iff < 90 and ≥ 70, channel colour iff < 70. The tiers are mutually exclusive. |
| MembershipCard.TierMonotone | src/components/dashboard/MembershipCard.tsx:164-170 | The tier never drops as the percentage rises. |
| MembershipCard.Render | src/components/dashboard/MembershipCard.tsx:24-212 | The view carries the membership's percentage, days remaining, channel and the bar tier of that percentage. The Renew button, orange border and expiring flag coincide and show exactly when the membership is expiring. The days warning shows iff days ≤ 7. The badge is active iff the lower-cased status is "active". |
| MembershipCard.ExpiringCrossMultiplied | src/components/dashboard/MembershipCard.tsx:29 | With a positive total: expiring iff days ≤ 7 or 100·used ≥ 90·total. |
| MembershipCard.ExpiringBoundaries | src/components/dashboard/MembershipCard.tsx:29 | Both bounds are inclusive: exactly 7 days left, or exactly 90% used, is expiring. |
| MembershipCard.NinetyPercentExample | src/components/dashboard/MembershipCard.tsx:24-29 | 90 of 100 used with 30 days left gives 10 remaining, 90% used, and the Renew button. |
| MembershipCard.ZeroTotalPercentage | src/components/dashboard/MembershipCard.tsx:24 | With a zero total and more than 7 days left: positive use gives +Infinity and is expiring. Zero use gives NaN, is not expiring, and the bar keeps the channel colour. |
| MembershipCard.GuardedQuotaPercentage | src/components/dashboard/MembershipCard.tsx:24 | The corrected percentage: 0 for a non-positive total, the card's value for a positive total, and within [0, 100] when 0 ≤ used ≤ total. |
| MembershipCard.GuardedExpiringAgrees | src/components/dashboard/MembershipCard.tsx:29 | The corrected flag equals the card's for a positive total, and depends on the days alone otherwise. |
| QuotaChart.Percentage | src/components/dashboard/QuotaChart.tsx:19 | 0 when total ≤ 0; otherwise percentage·total = 100·used. |
| QuotaChart.Remaining | src/components/dashboard/QuotaChart.tsx:20 | remaining + used = total with no clamping; negative iff used > total. |
| QuotaChart.PercentageBounds | src/components/dashboard/QuotaChart.tsx:19 | For 0 ≤ used ≤ total and total > 0: within [0, 100], and exactly 100 iff used = total. |
| QuotaChart.PercentageMonotone | src/components/dashboard/QuotaChart.tsx:19 | For a fixed positive total, non-decreasing in `used`. |
| QuotaChart.PercentageAtLeast | src/components/dashboard/QuotaChart.tsx:19 | For a positive total, percentage ≥ c iff 100·used ≥ c·total. |
| UsageChart.ChannelBar | src/components/dashboard/UsageChart.tsx:19-32 | The bar shows iff the channel's total is positive. The quota bar is always 100 high and the used bar's height is the percentage. The percentage is 0 unless the total is positive. |
| UsageChart.ChannelPercentageIsGuarded | src/components/dashboard/UsageChart.tsx:19-24 | Each channel's percentage equals the quota ring's guarded percentage. |
| UsageChart.ChannelsIndependent | src/components/dashboard/UsageChart.tsx:19-32 | The WhatsApp bar depends only on WhatsApp data, and the SMS bar only on SMS data. |
| UsageChart.Render | src/components/dashboard/UsageChart.tsx:19-32 | Each channel's bar shows iff that channel has a positive total, and its percentage is the quota ring's guarded percentage of that channel's numbers. |
| SendSMS.SelectedProject | src/pages/SendSMS.tsx:44-46 | The first project whose ID is the chosen one, or none exactly when no project has that ID. |
| SendSMS.FormAvailable | src/pages/SendSMS.tsx:26 | Not offered without a client, always offered when the client has a project, and then the first listed project is selectable. |
| SendSMS.AvailablePurposes | src/pages/SendSMS.tsx:47 | The selected project's purposes, or empty when none is selected. |
| SendSMS.ChangeProject | src/pages/SendSMS.tsx:135-140 | Sets the project, resets the purpose to "", and keeps mobile and message. |
| SendSMS.ResetForm | src/pages/SendSMS.tsx:88-91 | All four fields become "" and the response is cleared. |
| SendSMS.ApiKeyHeader | src/pages/SendSMS.tsx:65 | "" iff the key is null or empty; otherwise the key itself. |
| SendSMS.PurposeHeader | src/pages/SendSMS.tsx:66 | The chosen purpose when non-empty, otherwise the project id. |
| SendSMS.Authorization | src/pages/SendSMS.tsx:68 | "Bearer " followed by the token, or by the text "null" when there is none. |
| SendSMS.Submit | src/pages/SendSMS.tsx:53-73 | No request iff no project is selected. Otherwise the request carries the client id, project id, key header, purpose header, bearer token, mobile and message. |
| SendSMS.ListedProjectIsSendable | src/pages/SendSMS.tsx:26-57 | Whenever the form is offered (a client with at least one project), choosing any listed project makes submit issue a request. |
| SendSMS.ApiKeyDisplay | src/pages/SendSMS.tsx:173-175 | "Not available" for a null or empty key, otherwise its first 20 characters and "...". |
| SendSMS.ChangeProjectDefaultsPurpose | src/pages/SendSMS.tsx:135-140 | After a project change, the purpose header is the new project id. |
| ProjectCard.Metadata | src/components/dashboard/ProjectCard.tsx:29-33 | Metadata passes through unchanged, string or object. It is null when absent or the empty string. |
| ProjectCard.Mediums | src/components/dashboard/ProjectCard.tsx:34 | Empty when there is no metadata or it is a string. For object metadata it is the `mediums` list, or empty when that is missing. |
| ProjectCard.WhatsAppConfigOf | src/components/dashboard/ProjectCard.tsx:35 | Present iff the metadata is an object with a `whatsapp` value, and then equal to that value. |
| ProjectCard.HasSMS | src/components/dashboard/ProjectCard.tsx:36 | SMS is on iff object metadata lists "sms" among its mediums or the sender id is non-empty. |
| ProjectCard.HasWhatsApp | src/components/dashboard/ProjectCard.tsx:37 | WhatsApp is on iff object metadata lists "whatsapp" among its mediums or carries a `whatsapp` configuration. |
| ProjectCard.ChannelPanels | src/components/dashboard/ProjectCard.tsx:127-137 | The SMS badge and SMS panel both show iff SMS is on, and the WhatsApp badge shows iff WhatsApp is on. The WhatsApp panel (line 251) shows iff a configuration exists, and never without the badge; the SMS panel is at line 204. |
| ProjectCard.WhatsAppBadgeWithoutPanel | src/components/dashboard/ProjectCard.tsx:251 | A project that lists "whatsapp" but has no configuration shows the WhatsApp badge and no WhatsApp panel. |
| ProjectCard.StringMetadataHasNoMediums | src/components/dashboard/ProjectCard.tsx:29-37 | String metadata yields no mediums and no WhatsApp config. SMS then holds iff the sender id is non-empty, and WhatsApp is off. |
| ProjectCard.ProjectIdDisplay | src/components/dashboard/ProjectCard.tsx:147 | The first 8 characters (a prefix of the ID) followed by "...". |
| ProjectCard.AccessTokenDisplay | src/components/dashboard/ProjectCard.tsx:298-300 | "Not configured" when the token is absent or empty. Otherwise its first 20 characters (a prefix of it) followed by "...". |
| ProjectCard.PurposeMedium | src/components/dashboard/ProjectCard.tsx:345-348 | Object metadata with a non-empty `medium` gives that medium; every other purpose (no metadata, string metadata, missing or empty `medium`) gives "sms". |
| ProjectCard.PurposeStyle | src/components/dashboard/ProjectCard.tsx:350-360 | SMS styling iff the medium is exactly "sms"; anything else is WhatsApp. |
| ProjectCard.PurposesSection | src/components/dashboard/ProjectCard.tsx:329-339 | Shown iff there is a purpose, and its label count equals the list length. |
| ProjectCard.PurposeMediumDefault | src/components/dashboard/ProjectCard.tsx:345-348 | A purpose with missing or string metadata is an SMS purpose. |
| AdminSearch.MatchesCaseInsensitive | src/pages/AdminProjects.tsx:41-44 | Terms equal up to case match the same records, and lower-casing the term first changes nothing. |
| AdminSearch.MatchesEmpty | src/pages/AdminProjects.tsx:41-44 | The empty term matches every record. |
| AdminSearch.FilterProjects | src/pages/AdminProjects.tsx:41-44 | An order-preserving subsequence. A record whose lower(name) or lower(client_name) includes lower(term) keeps all its occurrences; every other record has none. |
| AdminSearch.FilterProjectsLaws | src/pages/AdminProjects.tsx:41-44 | The empty term keeps every project. Terms equal up to case give the same result. Filtering again changes nothing. |
| AdminSearch.FilterClients | src/pages/AdminClients.tsx:41-44 | An order-preserving subsequence. A record whose lower(name) or lower(contact_email) includes lower(term) keeps all its occurrences; every other record has none; the phone is never searched. |
| AdminSearch.FilterClientsLaws | src/pages/AdminClients.tsx:41-44 | Empty term keeps all; insensitive to the term's case; idempotent. |
| AdminSearch.FilterPurposes | src/pages/AdminPurposes.tsx:40-43 | An order-preserving subsequence. A record whose lower(name) or lower(description) includes lower(term) keeps all its occurrences; every other record has none. |
| AdminSearch.FilterPurposesLaws | src/pages/AdminPurposes.tsx:40-43 | Empty term keeps all; insensitive to the term's case; idempotent. |
| AdminSearch.FilterUsers | src/pages/AdminUsers.tsx:40-43 | An order-preserving subsequence. A record whose lower(username) or lower(email) includes lower(term) keeps all its occurrences; every other record has none. |
| AdminSearch.FilterUsersLaws | src/pages/AdminUsers.tsx:40-43 | Empty term keeps all; insensitive to the term's case; idempotent. |
| ApiConfig.BaseUrl | src/config/api.ts:3-5 | The environment override when set and non-empty, else the built-in default; never empty. |
| ApiConfig.Path | src/config/api.ts:9-15 | Every endpoint path begins with "/" and has more than one character. |
| ApiConfig.PathInjective | src/config/api.ts:9-15 | Distinct endpoints have distinct paths. |
| ApiConfig.GetApiUrl | src/config/api.ts:19-21 | Has length \|base\| + \|endpoint\|, with the base as a prefix and the endpoint as the rest. |
| ApiConfig.GetApiUrlInjective | src/config/api.ts:19-21 | For a fixed base, injective in the endpoint; the empty endpoint yields the base. |

## Left out

- Network I/O is not modelled. This covers every `fetch`/`axios` call and response handling: login, registration, fetching the client, plans and memberships, creating projects, purposes and memberships, sending SMS, and the admin list fetches. Only the request that `SendSMS.Submit` would issue is modelled.
- The admin pages import `API_URL` from the API config, which does not export that name. Their fetch side is not part of this model either way.
- JWT payload decoding (`atob` + `JSON.parse` of the token) is a foreign library call and the token is never verified, so it is not modelled. `JSON.parse` of stored user data is a parameter with three outcomes: failure, `null`, or a user object. Other non-null JSON values are not distinguished from a user object.
- `localStorage` is a record of three optional strings; writes at login and registration are not modelled.
- Time is not read: `new Date()` and date parsing are replaced by integer millisecond inputs. An unparseable `ValidTill` (an invalid date, giving NaN days) is not modelled.
- Percentages are exact reals: binary floating-point rounding, `toFixed`, `toLocaleString` and the ring's π-based stroke offsets are left out.
- `toLowerCase` maps only ASCII A–Z; full Unicode case mapping is not modelled.
- Presentational components, routing, store wiring, animations, timers, clipboard access and React hook mechanics (batching, stale closures, Immer drafts) are not modelled. Reducers are pure functions.
- Per-channel membership totals across a whole membership list are computed on a dashboard page that is not part of this model.
- ClientSlice.WithPurposes: ID, client id, name and sender id are modelled as strings. Their undefined cases, and malformed nested structures beyond the two API-key shapes, are not modelled.
- ClientSlice.NormalizeApiKey: an object `Key` of a non-string type is not modelled.
- ProjectCard.Mediums: a `mediums` field that is a string rather than an array (where `includes` would test for a substring) is not modelled.

## Findings

| source | as written | input that shows it | evidently intended | confidence | as-written member | corrected member |
|---|---|---|---|---|---|---|
| src/components/AuthProvider.tsx:20-25 | The parse result is dispatched as the user without checking that it is an object. | `user_data` stored as `null` (with token and client id present): `initializeAuth` sets `isAuthenticated` true with `user` null | A `null` parse result is treated like a parse failure, so the session is authenticated exactly when a token and a user are held | low (only stored data not written by the login page reaches it); not executed | AuthProvider.StartupNullUserBreaksInvariant | AuthProvider.StartupCheckedConsistent |
| src/components/dashboard/MembershipCard.tsx:24 | The usage percentage divides by `QuotaTotal` without a zero guard. | `QuotaTotal` 0, `QuotaUsed` 0 shows "NaN% used" and is never expiring on quota. `QuotaUsed` 5 shows "Infinity% used" and asks for renewal. | 0 when the total is 0, as the quota ring and the usage bars do | medium; not executed | MembershipCard.ZeroTotalPercentage | MembershipCard.GuardedExpiringAgrees |
| src/pages/CreateMembership.tsx:126-135 | `handleSubmit` posts the selected plans without calling `validateStep2`, and the submit button is disabled only while loading. | Step 2 reached with no plan selected: submit posts `[]` to the membership endpoint. | Validate step 2 first, so the plan message is shown and nothing is posted | medium (the unused `validateStep2` shows the intent); not executed | CreateMembership.SubmitWithoutPlansPostsEmpty | CreateMembership.SubmitCheckedNeverPostsEmpty |
