# Portal menu customisation and its neighbours, in Dafny

This project models the sequential logic of a multi-tenant accounting portal
(an admin dashboard and a client portal). The route handlers, client stores
and React components become Dafny functions, classes and lemmas.

**Portal menu customisation.** This is the centre of the model:

- The route (`MenuRoute`) encodes a section list as the stored pair
  (`sectionOrder`, `hiddenItems`) and decodes it back over the five default
  sections.
- The route sorts in place (`SectionSort.SortInPlace` on an `array`). This is
  proved equal to a stable insertion sort (`SectionSort.SortByOrder`).
- Encoding then decoding is proved to give the five defaults in stable order
  of their `order` values. Visibility is kept, orders are renumbered
  0..n-1 and labels return to their defaults. Ties in `order` are covered as
  well.
- The client store (`MenuStore`) keeps the committed customisation apart
  from the draft, with its loading, saving, dirty and error flags. It is a
  class whose async actions are split at the `await`: `Begin*` runs up to
  the request and `Complete*` runs once it settles.
- The modal (`MenuModal`) sequences those actions with the parent's
  `onClose`.
- The three tabs edit the draft: drag-and-drop reordering with
  renumbering, visibility and bookmark toggles, and validated practice links.

**Validators and state machines behind the security and profile routes.**

- notification preferences and the do-not-disturb range;
- the profile update schema and the email-change rejection;
- the email verification request;
- the same-origin check;
- team paging and member visibility;
- the MFA secret, backup code and `twoFactorEnabled` records across the
  authenticator, 2fa and disable routes;
- the security settings hook;
- the MFA setup wizard;
- the super-admin step-up modal.

**List, set and string helpers.**

- the role form;
- the users table;
- the searchable select;
- the layout store;
- the license step;
- the entities service;
- both avatars' initials;
- the footer;
- version strings;
- the business-setup analytics payloads.

**Runtime inputs.** HTTP, the database, the session, rate limiters, the
clock, random tokens and foreign libraries are inputs of the functions and
methods. These include zod's `.email()`/`.url()`, `new URL`, date parsing,
`Intl` and `@/lib/mfa`. Each module's header comment says which of these it
takes.

**Behaviours of the code that the model states as they are.**

- The sign-in MFA disable route clears the secret but leaves
  `twoFactorEnabled` as it was (`MfaDisableRoute.Post`).
- The team route's `status` parameter has no effect. Every member is
  reported `offline`.
- The footer's initials count the empty piece between two spaces, so
  "A  B" gives "A" (`Footer.InitialsDoubleSpace`).
- The header avatar takes the first two words and the portal avatar the
  first and last, so "Ann Bo Cy" gives "AB" and "AC"
  (`HeaderAvatar.AvatarsDisagree`).
- Every analytics event is sent with source `business_setup`. This
  overwrites the `source` the modal-opened helper passes.
- The DND range check rejects an end equal to the start and any range that
  passes midnight.
- Its time pattern accepts values such as "99:99".
- The team route's `limit` and `offset` go through `parseInt` without a
  radix, so '0x20' is read as thirty-two (`TeamRoute.HexLimit`).
- A zod schema failure reports every offending key, not only the first
  (`Zod.Issues`, shared by the preferences and profile schemas).

The users table's department filter throws on an empty list; this is listed
under Findings.

## Model

| member | source | states |
|---|---|---|
| Text.ToLower | src/app/admin/users/components/workbench/UsersTableWrapper.tsx:40 | the result has the same length and each character lower-cased |
| Text.ToUpper | src/components/portal/profile/Avatar.tsx:46 | the result has the same length and each character upper-cased |
| Text.UpperKeeps | src/components/portal/profile/Avatar.tsx:46 | a string without lower-case letters is its own upper-case form |
| Text.IsWhitespace | src/app/api/users/team/route.ts:27 | the ECMAScript whitespace and line-terminator characters (a definition; no contract) |
| Text.Trim | src/app/api/users/team/route.ts:27 | `trim()`: `TrimEnd` of `TrimStart` (a definition; its meaning is `TrimIdempotent`, `BlankIffTrimEmpty`) |
| Text.TrimStart | src/app/api/users/team/route.ts:27 | the result is the suffix left after removing exactly the leading whitespace |
| Text.TrimEnd | src/app/api/users/team/route.ts:27 | the result is the prefix left after removing exactly the trailing whitespace |
| Text.TrimIdempotent | src/app/api/users/team/route.ts:27 | trimming twice is trimming once, and a non-empty trimmed string starts and ends with a non-space |
| Text.BlankIffTrimEmpty | src/lib/admin/version.ts:53 | a string is blank iff it trims to empty |
| Text.IndexOf | src/components/admin/settings/SuperAdminSecurityModal.tsx:49 | the index of the first occurrence of the character, or -1 iff it does not occur |
| Text.Split | src/components/admin/settings/SuperAdminSecurityModal.tsx:49 | `split(sep)` gives at least one piece and no piece holds the separator |
| Text.SplitNoSeparator | src/components/admin/settings/SuperAdminSecurityModal.tsx:49 | a string without the separator is a single piece |
| Text.SplitCons | src/components/ui/optimized-footer.tsx:18 | a separator-free head followed by the separator splits off as the first piece |
| Text.SplitTwoCons | src/components/ui/optimized-footer.tsx:18 | two separator-free heads split off as the first two pieces |
| Text.JoinSplit | src/components/admin/settings/SuperAdminSecurityModal.tsx:110 | joining the pieces of a split with the separator gives back the string |
| Text.Join | src/components/admin/settings/SuperAdminSecurityModal.tsx:110 | `parts.join(sep)`: the pieces with the separator between each two (a definition; its meaning is `JoinSplit`, `WordsOfJoin`) |
| Text.StartsWith | src/lib/admin/version.ts:26 | `startsWith(p)`: the first characters are exactly p (a definition; no contract) |
| Text.Contains | src/app/admin/users/components/workbench/UsersTableWrapper.tsx:43 | `includes(sub)`: sub occurs at some position (a definition; no contract) |
| Text.NonWhitespaceRun | src/components/portal/profile/Avatar.tsx:44 | the longest run of leading non-whitespace characters |
| Text.Words | src/components/portal/profile/Avatar.tsx:44 | `split(/\s+/)` of a trimmed string gives only non-empty pieces |
| Text.TrimSplitWhitespace | src/components/portal/profile/Avatar.tsx:44 | `name.trim().split(/\s+/)`: a blank name gives one empty piece, any other the words (a definition; its meaning is `TrimSplitOfJoin`) |
| Text.WordsOfJoin | src/components/portal/profile/Avatar.tsx:44 | words joined by single spaces split back into the same words |
| Text.TrimSplitOfJoin | src/components/portal/profile/Avatar.tsx:44 | `trim().split(/\s+/)` of words joined by spaces gives those words |
| Text.Prefix | src/components/portal/profile/Avatar.tsx:48 | `substring(0, n)`: the first n characters, or all when fewer |
| Text.Utf16Length | src/components/portal/business-setup/services/analytics.ts:125 | the JavaScript length counts at least one and at most two code units per character |
| Text.FirstCodeUnit | src/components/portal/profile/Avatar.tsx:63 | `charCodeAt(0)` is a 16-bit code unit |
| Text.DecimalString | src/hooks/useSecuritySettings.ts:37 | a number's decimal form is a non-empty string of digits |
| Json.AsArray | src/app/api/portal/menu-customization/route.ts:83-84 | `Array.isArray(v) ? v : []` |
| Json.TruthyString | src/hooks/useSecuritySettings.ts:37 | a field reads as a string exactly when it is a non-empty string, which is then truthy |
| Json.Get | src/hooks/useSecuritySettings.ts:37 | `v.key`: the property of an object, undefined when it is missing or `v` is not an object (a definition; no contract) |
| Json.IsTruthy | src/hooks/useSecuritySettings.ts:40 | JavaScript truthiness: undefined, null, false, 0 and the empty string are falsy, everything else truthy (a definition; no contract) |
| Json.Read | src/hooks/useSecuritySettings.ts:36-40 | reading a property throws exactly on null, with V8's TypeError message; otherwise it gives the property, undefined when missing |
| Json.NullReadMessage | src/hooks/useSecuritySettings.ts:40 | V8's message for a property read on null (a definition; no contract) |
| Json.TruthyOr | src/components/admin/settings/SuperAdminSecurityModal.tsx:75 | `v.key || fallback`: the property when it is truthy, otherwise the fallback; a truthy string property gives that string |
| Json.ToJsString | src/hooks/useSecuritySettings.ts:37 | `String(v)`: the conversion `new Error(...)` applies to its message (a definition; its meaning is `ToJsStringScalars`, `NumberStrings`, `ArrayString` and `TruthyEmptyIsArray`) |
| Json.JoinElements | src/hooks/useSecuritySettings.ts:37 | an array's string form, its elements joined by commas with null as empty (a definition; no contract) |
| Json.ToJsStringScalars | src/hooks/useSecuritySettings.ts:37 | a string converts to itself; a number to its decimal digits, with a leading minus exactly when negative |
| Json.NumberStrings | src/hooks/useSecuritySettings.ts:37 | `String(5)` is '5' and `String(-12)` is '-12' |
| Json.ArrayString | src/hooks/useSecuritySettings.ts:37 | `String(["a", null, 3])` is 'a,,3' |
| Json.TruthyEmptyIsArray | src/hooks/useSecuritySettings.ts:37 | only an array can be truthy and convert to the empty string |
| Menu.Ids | src/app/api/portal/menu-customization/route.ts:144 | the ids of the sections, position by position |
| Menu.HiddenIdsMembership | src/app/api/portal/menu-customization/route.ts:145 | an id is in the hidden list iff some section with that id is not visible |
| Menu.IndexOfId | src/app/api/portal/menu-customization/route.ts:87-91 | the first position of a section with the id, or -1 when no section has it |
| Menu.DefaultIdsDistinct | src/app/api/portal/menu-customization/route.ts:44-50 | the five default section ids are distinct |
| SectionSort.InsertByOrder | src/app/api/portal/menu-customization/route.ts:144 | inserts after the trailing sections whose order does not exceed the new one's (a definition; its meaning is `InsertSorted`, `InsertPermutation`, `InsertStable`) |
| SectionSort.SortByOrder | src/app/api/portal/menu-customization/route.ts:144 | the stable insertion sort by ascending order (a definition; its meaning is `SortByOrderSorted`, `SortByOrderPermutation`, `SortByOrderStable`) |
| SectionSort.InsertPermutation | src/app/api/portal/menu-customization/route.ts:144 | inserting by order adds exactly the inserted section and one to the length |
| SectionSort.InsertSorted | src/app/api/portal/menu-customization/route.ts:144 | inserting into a list sorted by order keeps it sorted |
| SectionSort.SortByOrderSorted | src/app/api/portal/menu-customization/route.ts:144 | the stable sort's result is sorted ascending by order |
| SectionSort.SortByOrderPermutation | src/app/api/portal/menu-customization/route.ts:144 | the stable sort's result is a permutation of its input |
| SectionSort.InsertStable | src/app/api/portal/menu-customization/route.ts:144 | insertion appends the section after every earlier section with the same order |
| SectionSort.SortByOrderStable | src/app/api/portal/menu-customization/route.ts:144 | sections with equal order keep their relative order (stability of `Array.prototype.sort`) |
| SectionSort.InsertAt | src/app/api/portal/menu-customization/route.ts:144 | inserting after the last section of order at most x's places x exactly there |
| SectionSort.InsertLast | src/app/api/portal/menu-customization/route.ts:144 | one step of the in-place sort: the first i+1 cells become a[i] inserted into the sorted prefix, the rest unchanged |
| SectionSort.SortInPlace | src/app/api/portal/menu-customization/route.ts:144 | `sections.sort(...)` in place: afterwards the array holds the stable sort of its old contents |
| SectionSort.PermutationKeepsDistinct | src/app/api/portal/menu-customization/route.ts:144 | a permutation of a list with distinct keys has distinct keys |
| SectionSort.OrdersAreRanks | src/app/api/portal/menu-customization/route.ts:94 | in a sorted list whose distinct orders lie in 0..n-1, the section at position k has order k |
| ListOps.Filter | src/components/portal/menu/tabs/BookmarksTab.tsx:51-54 | `Array.prototype.filter`: no longer than the input and every kept element passes the test |
| ListOps.FilterCount | src/components/portal/menu/tabs/BookmarksTab.tsx:51-54 | a passing element is kept as often as it occurs, a failing one never |
| ListOps.FilterIsSubsequence | src/components/portal/menu/tabs/BookmarksTab.tsx:51-54 | the kept elements are in input order |
| ListOps.SubsequenceRefl | src/components/portal/menu/tabs/BookmarksTab.tsx:51-54 | a list is a subsequence of itself |
| ListOps.SubsequenceTrans | src/components/portal/menu/tabs/BookmarksTab.tsx:51-54 | a subsequence of a subsequence is a subsequence |
| ListOps.FilterIn | src/components/portal/menu/tabs/BookmarksTab.tsx:51-54 | every kept element is an element of the input |
| ListOps.FilterKeepsAll | src/components/portal/menu/tabs/BookmarksTab.tsx:51-54 | filtering a list whose every element passes returns it unchanged |
| ListOps.FilterCompose | src/components/portal/menu/tabs/BookmarksTab.tsx:51-54 | filtering twice is filtering once by the conjunction |
| ListOps.RemoveAll | src/stores/portal/layout.store.ts:53 | `filter(g => g !== x)`: no occurrence of x is left |
| ListOps.Toggle | src/stores/portal/layout.store.ts:52-54 | a present element is removed everywhere, an absent one appended; afterwards it is present iff it was absent |
| ListOps.ToggleCount | src/stores/portal/layout.store.ts:52-54 | a toggle leaves every other element's count unchanged and sets the toggled one's count to 0 or 1 |
| ListOps.ToggleTwiceAbsent | src/stores/portal/layout.store.ts:52-54 | toggling an absent element twice restores the list |
| ListOps.ToggleTwicePresent | src/stores/portal/layout.store.ts:52-54 | toggling a present element twice moves one copy of it to the end |
| MenuRoute.FindIndex | src/app/api/portal/menu-customization/route.ts:88 | the first position whose entry is the id as a JSON string, or -1 when no entry is |
| MenuRoute.Reconstruct | src/app/api/portal/menu-customization/route.ts:87-93 | one rebuilt section per default section, position by position |
| MenuRoute.DecodeSections | src/app/api/portal/menu-customization/route.ts:83-94 | the default sections rebuilt from the stored order and hidden ids, then sorted (a definition; its meaning is `DecodeSectionsShape`) |
| MenuRoute.Decode | src/app/api/portal/menu-customization/route.ts:83-100 | the loaded data of a stored row: the decoded sections and the stored bookmarks and practice items (a definition; its meaning is `EncodeDecodeRoundTrip`) |
| MenuRoute.Get | src/app/api/portal/menu-customization/route.ts:59-113 | 401 exactly when there is no session user; no stored row gives the default customisation; a stored row is decoded; a database failure is a 500 with 'Failed to fetch menu customization' |
| MenuRoute.Delete | src/app/api/portal/menu-customization/route.ts:183-210 | 401 exactly when there is no session user; a reset exactly for a signed-in user without a database failure, which removes that user's row and keeps every other row as it was; a database failure answers 'Failed to reset menu customization' and the table is unchanged |
| MenuRoute.ParseSection | src/app/api/portal/menu-customization/route.ts:15-20 | a section parses iff it has string id and label, a boolean `visible` and a number `order` (a definition; its meaning is `SectionJsonRoundTrip`) |
| MenuRoute.ParseBookmark | src/app/api/portal/menu-customization/route.ts:22-27 | a bookmark parses iff it has string id, label and href and a number `order` (a definition; its meaning is `BookmarkJsonRoundTrip`) |
| MenuRoute.ParsePracticeItem | src/app/api/portal/menu-customization/route.ts:29-34 | a practice item parses iff it has string id and label, a URL and a number `order` (a definition; its meaning is `PracticeItemJsonRoundTrip`) |
| MenuRoute.ParseAll | src/app/api/portal/menu-customization/route.ts:37-39 | an array passes `z.array` iff every element passes, and the result is the parsed elements in order |
| MenuRoute.ParseCustomization | src/app/api/portal/menu-customization/route.ts:36-40 | `customizationSchema.safeParse`: accepted iff the three arrays are present and every element parses (a definition; its meaning is `ParseCustomizationToJson`) |
| MenuRoute.SectionJsonRoundTrip | src/app/api/portal/menu-customization/route.ts:15-20 | the JSON form of any section passes the section schema and parses back to it |
| MenuRoute.BookmarkJsonRoundTrip | src/app/api/portal/menu-customization/route.ts:22-27 | the JSON form of any bookmark parses back to it |
| MenuRoute.PracticeItemJsonRoundTrip | src/app/api/portal/menu-customization/route.ts:29-34 | the JSON form of a practice item parses back to it iff its url passes the URL test |
| MenuRoute.ParseSectionsJson | src/app/api/portal/menu-customization/route.ts:37 | a JSON array of sections parses back to the same list |
| MenuRoute.ParseBookmarksJson | src/app/api/portal/menu-customization/route.ts:38 | a JSON array of bookmarks parses back to the same list |
| MenuRoute.ParsePracticeItemsJson | src/app/api/portal/menu-customization/route.ts:39 | a JSON array of practice items parses back iff every url passes the URL test |
| MenuRoute.ParseCustomizationToJson | src/app/api/portal/menu-customization/route.ts:36-40 | the schema accepts the JSON form of a customisation iff every practice link is a URL, and then returns it unchanged |
| MenuRoute.Encode | src/app/api/portal/menu-customization/route.ts:144-145 | `sectionOrder` is the ids in stable ascending order; `hiddenItems` is the ids of the invisible sections in that same sorted order |
| MenuRoute.Put | src/app/api/portal/menu-customization/route.ts:119-177 | 401 without a user; 500 for a body that is not JSON; 400 when the schema rejects the body; otherwise the encoded row is upserted (500 if the database fails); the table changes only on success |
| MenuRoute.GetAfterDelete | src/app/api/portal/menu-customization/route.ts:75-80 | after a successful DELETE, GET returns exactly the default customisation |
| MenuRoute.UnauthorizedChangesNothing | src/app/api/portal/menu-customization/route.ts:61-67 | without a session user GET and DELETE both answer 401 and DELETE leaves the table unchanged |
| MenuRoute.RebuildDecoded | src/app/api/portal/menu-customization/route.ts:87-93 | the i-th rebuilt section keeps the i-th default's id and label, takes its stored rank and is visible iff its id is not hidden |
| MenuRoute.ReconstructDistinctIds | src/app/api/portal/menu-customization/route.ts:87-93 | rebuilt sections have distinct ids when the defaults do |
| MenuRoute.RebuiltSortedShape | src/app/api/portal/menu-customization/route.ts:87-94 | for any defaults with distinct ids, the decoded list has one section per default, sorted by order, ids distinct, every default present, each section decoded from the columns |
| MenuRoute.DecodeSectionsShape | src/app/api/portal/menu-customization/route.ts:83-94 | whatever is stored, GET's sections are the five defaults once each with default labels, sorted by order; a non-array column counts as empty |
| MenuRoute.StoredRecordColumns | src/app/api/portal/menu-customization/route.ts:144-164 | the stored row's columns, read back as arrays, are the sorted ids and the hidden ids |
| MenuRoute.HiddenIffInvisible | src/app/api/portal/menu-customization/route.ts:92 | with distinct ids, a section's id is in `hiddenItems` iff that section is not visible |
| MenuRoute.SortedPermutationOf | src/app/api/portal/menu-customization/route.ts:144 | sorting sections that carry the default ids keeps their number and multiset, keeps ids distinct and keeps every default id present |
| MenuRoute.RebuiltOrdersArePositions | src/app/api/portal/menu-customization/route.ts:88-91 | rebuilding from the encoded ids gives each default section, as its order, its position in the sorted list, and these orders are distinct |
| MenuRoute.SortPositions | src/app/api/portal/menu-customization/route.ts:94 | sorting sections whose orders are exactly 0..n-1 puts the section with order k at position k |
| MenuRoute.RoundTripOver | src/app/api/portal/menu-customization/route.ts:87-94 | for any defaults with distinct ids, decoding the encoding of a permutation of them gives the ranked sorted list |
| MenuRoute.EncodeDecodeRoundTrip | src/app/api/portal/menu-customization/route.ts:143-145 | encode then decode gives the sections in stable ascending order of their orders, with the same visibility, orders renumbered 0..4 and default labels |
| MenuRoute.GetAfterPut | src/app/api/portal/menu-customization/route.ts:96-100 | GET after a successful PUT returns the ranked sections and the saved bookmarks and practice links |
| MenuStore.LoadedCustomization | src/stores/portal/menuCustomization.store.ts:99-111 | the loaded data when the request succeeds and returns some, otherwise the default customisation |
| MenuStore.CaughtMessage | src/stores/portal/menuCustomization.store.ts:94-95 | the `catch` records the message of the Error thrown for a non-OK response, of any other Error, or the fallback text |
| MenuStore.LoadError | src/stores/portal/menuCustomization.store.ts:94-111 | the error a failed load records: the not-ok message, the thrown message, or 'Failed to load' (a definition; its meaning is `CaughtMessage`) |
| MenuStore.WriteError | src/stores/portal/menuCustomization.store.ts:180-231 | the error a failed save or reset records, by the same rule (a definition; its meaning is `CaughtMessage`) |
| MenuStore.MenuCustomizationStore.constructor | src/stores/portal/menuCustomization.store.ts:75-80 | nothing loaded, no draft, every flag clear |
| MenuStore.MenuCustomizationStore.BeginInitialize | src/stores/portal/menuCustomization.store.ts:85-89 | starts exactly when nothing is loaded and no load runs; then marks loading and clears the error, else changes nothing |
| MenuStore.MenuCustomizationStore.CompleteInitialize | src/stores/portal/menuCustomization.store.ts:98-111 | stores the loaded (or default) customisation, clears loading, records the error on failure |
| MenuStore.MenuCustomizationStore.Initialize | src/stores/portal/menuCustomization.store.ts:85-113 | a no-op when loaded or loading; otherwise the customisation is loaded or defaulted, loading is cleared and the error is set only on failure |
| MenuStore.MenuCustomizationStore.InitializeDraft | src/stores/portal/menuCustomization.store.ts:118-123 | the draft becomes a copy of the given customisation and is clean; nothing else changes |
| MenuStore.MenuCustomizationStore.UpdateDraftSections | src/stores/portal/menuCustomization.store.ts:128-136 | without a draft nothing changes; otherwise only the draft's sections are replaced and the draft is dirty |
| MenuStore.MenuCustomizationStore.UpdateDraftBookmarks | src/stores/portal/menuCustomization.store.ts:141-149 | without a draft nothing changes; otherwise only the draft's bookmarks are replaced and the draft is dirty |
| MenuStore.MenuCustomizationStore.UpdateDraftPracticeItems | src/stores/portal/menuCustomization.store.ts:154-162 | without a draft nothing changes; otherwise only the draft's practice items are replaced and the draft is dirty |
| MenuStore.MenuCustomizationStore.BeginSave | src/stores/portal/menuCustomization.store.ts:167-171 | sends the draft; without one nothing changes; otherwise marks saving and clears the error |
| MenuStore.MenuCustomizationStore.CompleteSave | src/stores/portal/menuCustomization.store.ts:180-198 | succeeds iff the request did; success commits the sent draft and makes it clean; failure keeps the customisation and records the error |
| MenuStore.MenuCustomizationStore.Save | src/stores/portal/menuCustomization.store.ts:167-199 | false without a draft and no change; otherwise true iff the PUT succeeds, committing the draft, or false with the error recorded |
| MenuStore.MenuCustomizationStore.BeginReset | src/stores/portal/menuCustomization.store.ts:205 | marks saving and clears the error; nothing else changes |
| MenuStore.MenuCustomizationStore.CompleteReset | src/stores/portal/menuCustomization.store.ts:212-231 | success puts the defaults in both customisation and draft and makes them clean; failure changes only the flags and the error |
| MenuStore.MenuCustomizationStore.Reset | src/stores/portal/menuCustomization.store.ts:204-232 | true iff the DELETE succeeds, then both customisation and draft are the defaults; otherwise the error is recorded |
| MenuStore.MenuCustomizationStore.ClearDraft | src/stores/portal/menuCustomization.store.ts:237-243 | drops the draft, clears dirty and the error; nothing else changes |
| MenuModal.PortalMenuModal.constructor | src/components/portal/menu/PortalMenuCustomizationModal.tsx:43 | the modal starts on the sections tab with no close request |
| MenuModal.PortalMenuModal.CurrentView | src/components/portal/menu/PortalMenuCustomizationModal.tsx:139-216 | nothing is rendered iff the modal is closed; tab content shows the store's draft on the selected tab, and never while loading |
| MenuModal.PortalMenuModal.Mount | src/components/portal/menu/PortalMenuCustomizationModal.tsx:63-65 | the mount effect runs the store's `initialize`: a no-op when loaded or loading, otherwise the customisation is loaded or defaulted |
| MenuModal.PortalMenuModal.DraftEffect | src/components/portal/menu/PortalMenuCustomizationModal.tsx:68-72 | when open with a loaded customisation the draft becomes a clean copy of it; otherwise the store is unchanged |
| MenuModal.PortalMenuModal.SelectTab | src/components/portal/menu/PortalMenuCustomizationModal.tsx:183-184 | selects the tab and changes nothing else |
| MenuModal.PortalMenuModal.Dismiss | src/components/portal/menu/PortalMenuCustomizationModal.tsx:75-93 | while open, a backdrop click or Escape asks the parent to close once; while closed nothing happens; nothing else changes |
| MenuModal.PortalMenuModal.Cancel | src/components/portal/menu/PortalMenuCustomizationModal.tsx:107-110 | the draft is dropped, dirty and error cleared, the committed customisation kept, and close is requested once |
| MenuModal.PortalMenuModal.HandleSave | src/components/portal/menu/PortalMenuCustomizationModal.tsx:113-121 | saved iff there is a draft and the PUT succeeds; then the draft is committed and close is requested exactly once, otherwise never |
| MenuModal.PortalMenuModal.HandleReset | src/components/portal/menu/PortalMenuCustomizationModal.tsx:124-137 | an unconfirmed reset changes nothing; otherwise done iff the DELETE succeeds, leaving the defaults in store and draft and requesting close exactly once |
| MenuModal.SaveEnabledHasDraft | src/components/portal/menu/PortalMenuCustomizationModal.tsx:241 | an enabled Save button implies a draft exists, so the store never takes its no-draft return |
| MenuModal.PortalMenuModal.SaveEnabled | src/components/portal/menu/PortalMenuCustomizationModal.tsx:241 | Save is enabled iff no save runs and the draft is dirty (a definition; its meaning is `SaveEnabledHasDraft`) |
| MenuModal.PortalMenuModal.ResetEnabled | src/components/portal/menu/PortalMenuCustomizationModal.tsx:224 | Reset to Defaults is disabled while saving (a definition; no contract) |
| MenuModal.PortalMenuModal.CancelEnabled | src/components/portal/menu/PortalMenuCustomizationModal.tsx:234 | Cancel is disabled while saving (a definition; no contract) |
| SectionsTab.EffectiveSections | src/components/portal/menu/tabs/SectionsTab.tsx:29-31 | the customisation's sections when there are any, otherwise the five defaults; never empty |
| SectionsTab.ToggleVisibility | src/components/portal/menu/tabs/SectionsTab.tsx:36-41 | same length; exactly the sections with the id flip visibility, every other section is unchanged |
| SectionsTab.ToggleKeepsShape | src/components/portal/menu/tabs/SectionsTab.tsx:37-39 | a toggle keeps every section's id, label and order, and changes visibility iff the id matches |
| SectionsTab.ToggleTwice | src/components/portal/menu/tabs/SectionsTab.tsx:36-41 | toggling the same id twice restores the list |
| SectionsTab.Renumber | src/components/portal/menu/tabs/SectionsTab.tsx:59 | every section's order becomes its position, nothing else changes |
| SectionsTab.MovedAt | src/components/portal/menu/tabs/SectionsTab.tsx:54-56 | after the two splices, position `to` holds the dragged section and the sections in between shift by one towards the gap |
| SectionsTab.MovedLands | src/components/portal/menu/tabs/SectionsTab.tsx:55-56 | the dragged section lands at the hovered position |
| SectionsTab.MovedKeepsOthers | src/components/portal/menu/tabs/SectionsTab.tsx:55-56 | apart from the dragged section, the other sections keep their relative order |
| SectionsTab.MovedPermutation | src/components/portal/menu/tabs/SectionsTab.tsx:54-56 | a move is a permutation of the list |
| SectionsTab.RenumberedIsRanked | src/components/portal/menu/tabs/SectionsTab.tsx:59 | after renumbering, orders are 0..n-1 and the list is sorted by order |
| SectionsTab.MoveInPlace | src/components/portal/menu/tabs/SectionsTab.tsx:54-56 | the two `splice` calls on an array leave exactly the moved list |
| SectionsTab.SectionsTabState.DragStart | src/components/portal/menu/tabs/SectionsTab.tsx:43-45 | records the dragged index, nothing else changes |
| SectionsTab.SectionsTabState.DragOver | src/components/portal/menu/tabs/SectionsTab.tsx:47-50 | records the hovered index, nothing else changes |
| SectionsTab.SectionsTabState.DragLeave | src/components/portal/menu/tabs/SectionsTab.tsx:67-69 | clears the hovered index, nothing else changes |
| SectionsTab.SectionsTabState.DragEnd | src/components/portal/menu/tabs/SectionsTab.tsx:52-65 | both indices are cleared; a change is emitted iff both are set and differ, and then it is the moved and renumbered list |
| SectionsTab.SortedIsFixed | src/app/api/portal/menu-customization/route.ts:144 | the stable sort leaves an already sorted list unchanged |
| SectionsTab.MovedRenumbered | src/components/portal/menu/tabs/SectionsTab.tsx:52-60 | a moved and renumbered permutation of the defaults still carries the default ids and is already sorted |
| SectionsTab.RankedKeepsOrder | src/app/api/portal/menu-customization/route.ts:87-94 | ranking keeps ids and visibility in place and sets each order to its position |
| SectionsTab.IdsOfMoved | src/components/portal/menu/tabs/SectionsTab.tsx:54-56 | the ids of a moved list are the moved ids |
| SectionsTab.MoveThenSaveRoundTrip | src/app/api/portal/menu-customization/route.ts:144-145 | a list produced by a drag, saved and read back, has the same ids and visibility in the same order, with orders 0..n-1 |
| SectionsTab.SectionsTabState.constructor | src/components/portal/menu/tabs/SectionsTab.tsx:29-34 | the tab shows the effective sections, with nothing dragged and nothing hovered |
| BookmarksTab.FilterPages | src/components/portal/menu/tabs/BookmarksTab.tsx:48-55 | a blank query keeps the whole catalogue; otherwise exactly the pages whose label or category contains the lower-cased query |
| BookmarksTab.Matches | src/components/portal/menu/tabs/BookmarksTab.tsx:50-53 | the lower-cased label or category includes the lower-cased query (a definition; its meaning is `FilterPagesExact`) |
| BookmarksTab.CatalogueSize | src/components/portal/menu/tabs/BookmarksTab.tsx:22-37 | the catalogue holds fourteen pages |
| BookmarksTab.FilterPagesExact | src/components/portal/menu/tabs/BookmarksTab.tsx:51-54 | each page occurs in the filtered list as often as in the catalogue when it matches and not at all otherwise, in catalogue order |
| BookmarksTab.GroupedPages | src/components/portal/menu/tabs/BookmarksTab.tsx:57-66 | the categories of the filtered pages in first-occurrence order, each mapped to exactly its pages in order |
| BookmarksTab.BookmarkedIds | src/components/portal/menu/tabs/BookmarksTab.tsx:43-46 | the set of ids of the current bookmarks |
| BookmarksTab.RemoveBookmark | src/components/portal/menu/tabs/BookmarksTab.tsx:85-88 | after removal no bookmark has the id |
| BookmarksTab.ToggleBookmark | src/components/portal/menu/tabs/BookmarksTab.tsx:68-83 | a bookmarked page is removed; any other page is appended with order equal to the old number of bookmarks |
| BookmarksTab.RemoveBookmarkExact | src/components/portal/menu/tabs/BookmarksTab.tsx:86 | removal drops exactly the bookmarks with that id and keeps the others in order |
| BookmarksTab.ToggleFlips | src/components/portal/menu/tabs/BookmarksTab.tsx:68-83 | after a toggle the page is bookmarked iff it was not before |
| BookmarksTab.ToggleTwiceRestores | src/components/portal/menu/tabs/BookmarksTab.tsx:68-83 | toggling an unbookmarked page twice restores the list |
| BookmarksTab.RemoveAppended | src/components/portal/menu/tabs/BookmarksTab.tsx:71 | removing a just-appended bookmark's id is the same as removing it from the list before the append |
| BookmarksTab.RemoveAbsent | src/components/portal/menu/tabs/BookmarksTab.tsx:86 | removing an id no bookmark has changes nothing |
| Grouping.FirstKeysMembership | src/components/portal/menu/tabs/BookmarksTab.tsx:59-64 | a key is listed iff some item has it |
| Grouping.FirstKeysDistinct | src/components/portal/menu/tabs/BookmarksTab.tsx:60-62 | each key is listed once |
| Grouping.SelectNone | src/components/portal/menu/tabs/BookmarksTab.tsx:63 | a key no item has selects nothing |
| Grouping.SelectStep | src/components/portal/menu/tabs/BookmarksTab.tsx:63 | pushing an item extends exactly the group of its key |
| Grouping.GroupBy | src/components/portal/menu/tabs/BookmarksTab.tsx:57-66 | the `forEach` loop builds, for every key in first-occurrence order, exactly the items with that key in order, and no other entry |
| Grouping.GroupCount | src/components/portal/menu/tabs/BookmarksTab.tsx:63 | each item is in its own group as often as in the input, and in no other group |
| Grouping.GroupOrder | src/components/portal/menu/tabs/BookmarksTab.tsx:63 | each group keeps the input order |
| PracticeTab.NormalizeUrl | src/components/portal/menu/tabs/YourPracticeTab.tsx:43 | a URL starting with 'http' is kept, anything else gets 'https://' in front |
| PracticeTab.NormalizeIdempotent | src/components/portal/menu/tabs/YourPracticeTab.tsx:52 | normalising twice is normalising once, and the result always starts with 'http' |
| PracticeTab.RemoveItem | src/components/portal/menu/tabs/YourPracticeTab.tsx:61-64 | no remaining item has the removed id |
| PracticeTab.RemoveItemExact | src/components/portal/menu/tabs/YourPracticeTab.tsx:62 | removal drops exactly the items with the id and keeps the order of the others |
| PracticeTab.AddCheck | src/components/portal/menu/tabs/YourPracticeTab.tsx:31-47 | 'Label is required' iff the label is blank; 'URL is required' iff the label is not and the URL is; 'Please enter a valid URL' iff both are present and the normalised URL does not parse |
| PracticeTab.PracticeTabState.constructor | src/components/portal/menu/tabs/YourPracticeTab.tsx:23-26 | the tab starts with the customisation's links, empty inputs and no error |
| PracticeTab.PracticeTabState.SetInputs | src/components/portal/menu/tabs/YourPracticeTab.tsx:24-25 | typing sets the two inputs and nothing else |
| PracticeTab.PracticeTabState.AddItem | src/components/portal/menu/tabs/YourPracticeTab.tsx:28-59 | the error is the check's verdict; a change is emitted iff there is no error, appending the trimmed label, the normalised URL and order = number of links, and then the inputs are cleared |
| PracticeTab.AddedItemIsValid | src/components/portal/menu/tabs/YourPracticeTab.tsx:49-54 | an accepted item has a non-empty trimmed label and a URL that parses |
| LayoutStore.PortalLayoutStore.constructor | src/stores/portal/layout.store.ts:36-40 | sidebar expanded at width 256, no expanded groups, tab 'overview', no entity selected |
| LayoutStore.PortalLayoutStore.Persisted | src/stores/portal/layout.store.ts:66-72 | the persisted slice is every field but the selected entity |
| LayoutStore.PortalLayoutStore.SetSidebarCollapsed | src/stores/portal/layout.store.ts:44-45 | sets the flag and nothing else |
| LayoutStore.PortalLayoutStore.SetSidebarWidth | src/stores/portal/layout.store.ts:47-48 | sets the width and nothing else |
| LayoutStore.PortalLayoutStore.ToggleGroup | src/stores/portal/layout.store.ts:50-55 | the expanded list becomes its toggle by the group name; nothing else changes |
| LayoutStore.PortalLayoutStore.SetActiveTab | src/stores/portal/layout.store.ts:57-58 | sets the tab and nothing else |
| LayoutStore.PortalLayoutStore.SetSelectedEntity | src/stores/portal/layout.store.ts:60-61 | sets the selected entity and leaves the persisted slice unchanged |
| RoleForm.InitialForm | src/components/admin/shared/RoleFormModal.tsx:139-143 | the form starts from the initial data's fields where present, otherwise empty name, description and permission list |
| RoleForm.CategoryOf | src/components/admin/shared/RoleFormModal.tsx:153 | a permission's category, 'Other' when it has none (a definition; no contract) |
| RoleForm.PermMatches | src/components/admin/shared/RoleFormModal.tsx:166-167 | a permission matches iff its lower-cased name or description contains the query (a definition; no contract) |
| RoleForm.AnyMatchesMembership | src/components/admin/shared/RoleFormModal.tsx:165-168 | `some` holds iff some permission's name or description contains the query |
| RoleForm.PermissionsByCategory | src/components/admin/shared/RoleFormModal.tsx:151-158 | the `reduce` builds, for each category ('Other' for an empty one) in first-occurrence order, exactly its permissions in order |
| RoleForm.CategoryHasMatchExact | src/components/admin/shared/RoleFormModal.tsx:164-169 | a category's group has a match iff some permission of that category matches |
| RoleForm.FilteredCategories | src/components/admin/shared/RoleFormModal.tsx:161-162 | a blank search lists every category in first-occurrence order |
| RoleForm.FilteredPerms | src/components/admin/shared/RoleFormModal.tsx:66-67 | a blank search keeps every permission of the group |
| RoleForm.FilteredCategoriesExact | src/components/admin/shared/RoleFormModal.tsx:163-169 | with a search, a category is listed iff one of its permissions matches the lower-cased query |
| RoleForm.ListedCategoryRenders | src/components/admin/shared/RoleFormModal.tsx:75 | every listed category has a permission that survives the per-group filter, so its group is never rendered as null |
| RoleForm.SubmitTarget | src/components/admin/shared/RoleFormModal.tsx:266-269 | create posts to /api/admin/roles; edit patches /api/admin/roles/<id>, with 'undefined' for a missing id |
| RoleForm.FormCheck | src/components/admin/shared/RoleFormModal.tsx:243-257 | 'Role name is required' iff the name is blank; the description error iff only the description is blank; the permission error iff both are present and no permission is chosen; no error iff the form is valid |
| RoleForm.RoleFormState.constructor | src/components/admin/shared/RoleFormModal.tsx:133-143 | empty state around the initial form |
| RoleForm.RoleFormState.LoadPermissions | src/components/admin/shared/RoleFormModal.tsx:183-211 | a load stores the permissions and expands their first three distinct categories; a failure stores the nine fallback permissions and expands 'Users' and 'Roles' |
| RoleForm.RoleFormState.SetSearchQuery | src/components/admin/shared/RoleFormModal.tsx:383-390 | typing or the clear button sets the query and nothing else |
| RoleForm.RoleFormState.SearchEffect | src/components/admin/shared/RoleFormModal.tsx:173-177 | a non-blank search expands exactly the listed categories; a blank one leaves the expansion alone |
| RoleForm.RoleFormState.HandleChange | src/components/admin/shared/RoleFormModal.tsx:217-220 | exactly the changed field is replaced and the error is cleared |
| RoleForm.RoleFormState.TogglePermission | src/components/admin/shared/RoleFormModal.tsx:222-229 | the permission list becomes its toggle by the id; nothing else changes |
| RoleForm.RoleFormState.ToggleCategory | src/components/admin/shared/RoleFormModal.tsx:231-241 | the category's expansion flips and every other category's expansion is kept |
| RoleForm.RoleFormState.ValidateForm | src/components/admin/shared/RoleFormModal.tsx:243-257 | true iff the form passes the check; otherwise the check's message is the error |
| RoleForm.RoleFormState.Submit | src/components/admin/shared/RoleFormModal.tsx:259-317 | a request is sent iff the form is valid, and an invalid form records the failed check's message; the dialog closes iff the request succeeds, and then the error is as before, the sync event for the mode is emitted and the returned id goes to `onSuccess` when the parent passed one; a failure records the server's message or the default text, emitting nothing; submitting is cleared afterwards |
| RoleForm.SyncEvent | src/components/admin/shared/RoleFormModal.tsx:283-301 | 'role:created' with the returned id, or 'role:updated' with the edited role's id, carrying the submitted form (a definition) |
| RoleForm.DefaultFailure | src/components/admin/shared/RoleFormModal.tsx:278 | 'Failed to create role' or 'Failed to update role' (a definition; no contract) |
| RoleForm.Prefix3 | src/components/admin/shared/RoleFormModal.tsx:194 | `slice(0, 3)`: the first three categories, or all of them when fewer |
| UsersTable.SearchMatch | src/app/admin/users/components/workbench/UsersTableWrapper.tsx:42-44 | a user matches a lower-cased search iff its lower-cased name or email contains it (a definition; no contract) |
| UsersTable.BySearch | src/app/admin/users/components/workbench/UsersTableWrapper.tsx:39-46 | the search filter, applied only when the search is set (a definition; its meaning is `IntermediateExact`) |
| UsersTable.ByRole | src/app/admin/users/components/workbench/UsersTableWrapper.tsx:49-51 | the role filter, applied only when the role is set (a definition; its meaning is `IntermediateExact`) |
| UsersTable.ByStatus | src/app/admin/users/components/workbench/UsersTableWrapper.tsx:54-56 | the status filter, applied only when the status is set (a definition; its meaning is `IntermediateExact`) |
| UsersTable.Intermediate | src/app/admin/users/components/workbench/UsersTableWrapper.tsx:36-56 | the list after the search, role and status filters, a non-array users value counting as empty (a definition; its meaning is `IntermediateExact`) |
| UsersTable.ByDepartment | src/app/admin/users/components/workbench/UsersTableWrapper.tsx:60 | keeps the users whose department equals the filter (a definition; its meaning is `FilteredUsersExact`) |
| UsersTable.DepartmentApplies | src/app/admin/users/components/workbench/UsersTableWrapper.tsx:59 | `filters.department && 'department' in result[0]` on a non-empty intermediate list (a definition; no contract) |
| UsersTable.Passes | src/app/admin/users/components/workbench/UsersTableWrapper.tsx:39-61 | the conjunction of the search, role, status and, when it applies, department filters (a definition; its meaning is `FilteredUsersExact`) |
| UsersTable.FilteredUsersGuarded | src/app/admin/users/components/workbench/UsersTableWrapper.tsx:35-64 | the memo with the key test guarded by a length check (a definition; its meaning is `FilteredUsersGuardedExact`) |
| UsersTable.FilteredUsers | src/app/admin/users/components/workbench/UsersTableWrapper.tsx:35-64 | the memo as written fails (throws) exactly when a department filter is set and no user survives the search, role and status filters |
| UsersTable.IntermediateExact | src/app/admin/users/components/workbench/UsersTableWrapper.tsx:36-56 | the search, role and status filters keep each user exactly as often as the input holds it when it passes all three, and none otherwise, in the input's order |
| UsersTable.FilteredUsersExact | src/app/admin/users/components/workbench/UsersTableWrapper.tsx:35-64 | when the memo does not throw it keeps exactly the users passing every filter in force (the department one only when the first survivor has the key), in order; no user list gives an empty result |
| UsersTable.EmptyListThrows | src/app/admin/users/components/workbench/UsersTableWrapper.tsx:59 | an empty user list, or none, with a department filter reaches `'department' in undefined` |
| UsersTable.NullDepartmentKeyApplies | src/app/admin/users/components/workbench/UsersTableWrapper.tsx:59-60 | a `department` key holding null counts as present: the filter applies and drops that user |
| UsersTable.FilteredUsersGuardedExact | src/app/admin/users/components/workbench/UsersTableWrapper.tsx:35-64 | the guarded memo keeps exactly the passing users in order, agrees with the original wherever that does not throw, and gives an empty list where it throws |
| UsersTable.SelectUser | src/app/admin/users/components/workbench/UsersTableWrapper.tsx:66-77 | the new selection holds the id iff it was selected, and every other id as before |
| UsersTable.UserIds | src/app/admin/users/components/workbench/UsersTableWrapper.tsx:82 | the set holds exactly the ids of the listed users |
| UsersTable.SelectAll | src/app/admin/users/components/workbench/UsersTableWrapper.tsx:79-88 | selecting all gives exactly the filtered users' ids; clearing gives the empty set |
| UsersTable.SelectDeselect | src/app/admin/users/components/workbench/UsersTableWrapper.tsx:66-77 | adding then removing an id not in the selection restores it |
| UsersTable.SelectAllPasses | src/app/admin/users/components/workbench/UsersTableWrapper.tsx:79-88 | every id select-all picks belongs to a user that passes the filters |
| SearchableSelect.StepDown | src/components/ui/SearchableSelect/SearchResults.tsx:43 | from an index on the list, ArrowDown moves one down, stopping at the last item |
| SearchableSelect.StepUp | src/components/ui/SearchableSelect/SearchResults.tsx:47 | from an index on the list, ArrowUp moves one up, stopping at the first item |
| SearchableSelect.StepDownSettles | src/components/ui/SearchableSelect/SearchResults.tsx:41-44 | enough ArrowDown presses always land on the last item |
| SearchableSelect.SearchResults.constructor | src/components/ui/SearchableSelect/SearchResults.tsx:30 | the cursor starts on the first item |
| SearchableSelect.SearchResults.SetItems | src/components/ui/SearchableSelect/SearchResults.tsx:33-36 | new items reset the cursor to the first one |
| SearchableSelect.SearchResults.View | src/components/ui/SearchableSelect/SearchResults.tsx:58-81 | the empty state is shown iff there are no items; otherwise the list with the focused index |
| SearchableSelect.SearchResults.KeyDown | src/components/ui/SearchableSelect/SearchResults.tsx:39-56 | the arrows move the cursor as StepDown and StepUp say and keep it on the list; Enter reports the focused item when it is truthy, and nothing for a falsy item, and moves nothing; other keys change nothing |
| SearchableSelect.Select.constructor | src/components/ui/SearchableSelect/index.tsx:55-61 | the dropdown starts closed, with an empty query and nothing reported |
| SearchableSelect.Select.SetQuery | src/components/ui/SearchableSelect/index.tsx:121 | typing replaces the query and nothing else |
| SearchableSelect.Select.SelectItem | src/components/ui/SearchableSelect/index.tsx:63-67 | choosing reports the item, closes the dropdown and clears the query |
| SearchableSelect.Select.Clear | src/components/ui/SearchableSelect/index.tsx:69-72 | clearing empties the query and reports no selection, leaving the dropdown as it was |
| SearchableSelect.Select.Toggle | src/components/ui/SearchableSelect/index.tsx:74-80 | the dropdown flips open or closed unless the select is disabled |
| SearchableSelect.Select.BackdropClick | src/components/ui/SearchableSelect/index.tsx:140-146 | a click outside closes the dropdown and changes nothing else |
| NotificationPreferences.DigestOf | src/app/api/notifications/preferences/route.ts:19 | a digest is accepted iff it is one of instant, daily, weekly and none |
| NotificationPreferences.OptBool | src/app/api/notifications/preferences/route.ts:16-18 | an optional boolean field passes iff it is absent or a boolean, and is kept as given |
| NotificationPreferences.OptTime | src/app/api/notifications/preferences/route.ts:21-22 | an optional time passes iff it is absent or a string of two digits, a colon and two digits, and is kept as given |
| NotificationPreferences.OptDigest | src/app/api/notifications/preferences/route.ts:19 | the digest field passes iff it is absent or one of the four names |
| NotificationPreferences.OptRecord | src/app/api/notifications/preferences/route.ts:23 | `types` passes iff it is absent or an object |
| Zod.Issues | src/app/api/notifications/preferences/route.ts:15-24 | empty iff every check passed; every failing key is listed and only schema keys are; its length is the number of failed checks, which with `IssuesAt` fixes each issue and its place |
| Zod.Failures | src/app/api/notifications/preferences/route.ts:15-24 | the number of failed checks, never more than the checks (a definition) |
| Zod.IssueIff | src/app/api/notifications/preferences/route.ts:15-24 | a key is reported iff some check of that key failed |
| Zod.IssuesAt | src/app/api/notifications/preferences/route.ts:15-24 | the key of a failed check at position j is the issue placed after exactly the failures before j, so the issues follow schema order |
| NotificationPreferences.FieldChecks | src/app/api/notifications/preferences/route.ts:15-24 | one check outcome per schema key, in schema order |
| NotificationPreferences.ParsePreferences | src/app/api/notifications/preferences/route.ts:15-24 | the schema passes iff the body is an object and all eight field checks pass; a failure lists every offending key; any time it keeps has the HH:mm shape, and the digest is set iff the body gives one |
| NotificationPreferences.EveryIssueReported | src/app/api/notifications/preferences/route.ts:15-24 | a wrong `inAppEnabled` and a wrong `types` are both reported |
| NotificationPreferences.SplitTime | src/app/api/notifications/preferences/route.ts:83-86 | `split(':')` of a well-shaped time gives its hour and minute digits |
| NotificationPreferences.Get | src/app/api/notifications/preferences/route.ts:27-61 | unauthorized iff there is no session user or no id; otherwise a server error iff the hub throws, else the stored preferences, or the fixed defaults when none are stored |
| NotificationPreferences.CanRead | src/app/api/notifications/preferences/route.ts:31-38 | a session user with a truthy id (a definition; no contract) |
| NotificationPreferences.CanWrite | src/app/api/notifications/preferences/route.ts:68-76 | a session user with a truthy id and tenant id (a definition; no contract) |
| NotificationPreferences.Put | src/app/api/notifications/preferences/route.ts:64-110 | unauthorized iff the user id or tenant id is missing; for an authorised session, an unreadable body is a server error, a schema failure a bad request with its issues, a rejected range a bad request with the range message, a throwing hub a server error, and otherwise the update for the session's user and tenant; conversely an update has passed the schema and the range check and a bad request comes only from those two |
| NotificationPreferences.ShapeIsNotRange | src/app/api/notifications/preferences/route.ts:21 | the schema checks shape, not the clock: '99:99' passes and counts 99*60+99 minutes |
| NotificationPreferences.EmptyAndOvernightRejected | src/app/api/notifications/preferences/route.ts:82-90 | an empty range and an overnight range such as 22:00-06:00 are both rejected |
| NotificationPreferences.TimeShape | src/app/api/notifications/preferences/route.ts:21-22 | the pattern of two digits, a colon and two digits (a definition; no contract) |
| NotificationPreferences.Minutes | src/app/api/notifications/preferences/route.ts:83-86 | hours times sixty plus minutes of a well-shaped time, at most 99*60+99 |
| NotificationPreferences.RangeRejected | src/app/api/notifications/preferences/route.ts:82-90 | the range is rejected iff both ends are given and the start does not count fewer minutes than the end (a definition; no contract) |
| NotificationPreferences.MinutesOrder | src/app/api/notifications/preferences/route.ts:83-88 | an earlier hour with valid minutes gives fewer minutes |
| NotificationPreferences.MinutesOutOfClock | src/app/api/notifications/preferences/route.ts:83-88 | '00:99' counts as later than '01:00' |
| NotificationPreferences.TenantNeededOnlyToWrite | src/app/api/notifications/preferences/route.ts:35-38 | a user without a tenant can read preferences but not write them |
| TeamRoute.HexDigitValue | src/app/api/users/team/route.ts:30-31 | a character's digit value: 0-9 for decimal digits, 10-15 for a-f and A-F, 16 for anything else |
| TeamRoute.IsRadixDigit | src/app/api/users/team/route.ts:30-31 | a digit of the radix: its value is below the radix (a definition; no contract) |
| TeamRoute.DecimalDigitIff | src/app/api/users/team/route.ts:30-31 | the digits of radix ten are exactly the decimal digits |
| TeamRoute.RadixValue | src/app/api/users/team/route.ts:30-31 | the value of a digit string in radix ten or sixteen (a definition; its meaning is `RadixOfOne`, `RadixOfTwo`) |
| TeamRoute.RadixOfOne | src/app/api/users/team/route.ts:30-31 | one digit is worth its digit value |
| TeamRoute.RadixOfTwo | src/app/api/users/team/route.ts:30-31 | two digits are worth the first times the radix plus the second |
| TeamRoute.DigitRun | src/app/api/users/team/route.ts:30-31 | `parseInt` reads the longest run of leading digits of the radix |
| TeamRoute.Unsigned | src/app/api/users/team/route.ts:30-31 | one leading '-' or '+' is dropped, and nothing else |
| TeamRoute.HasHexPrefix | src/app/api/users/team/route.ts:30-31 | the body starts with '0x' or '0X' (a definition; no contract) |
| TeamRoute.Radix | src/app/api/users/team/route.ts:30-31 | `parseInt` without a radix argument reads radix sixteen iff the body has the hex prefix, else radix ten |
| TeamRoute.Numeral | src/app/api/users/team/route.ts:30-31 | the body with the hex prefix removed when present, unchanged otherwise |
| TeamRoute.Body | src/app/api/users/team/route.ts:30-31 | the string after leading whitespace and the sign (a definition; no contract) |
| TeamRoute.Negative | src/app/api/users/team/route.ts:30-31 | the sign after leading whitespace is '-' |
| TeamRoute.Digits | src/app/api/users/team/route.ts:30-31 | the longest prefix of the numeral made of digits of the radix |
| TeamRoute.ParseInt | src/app/api/users/team/route.ts:30-31 | `parseInt(s)`: NaN iff no digit of the radix follows the whitespace, sign and prefix; otherwise the value of those digits in the radix, negated after '-' |
| TeamRoute.ParseIntNaNIff | src/app/api/users/team/route.ts:30-31 | `parseInt` gives NaN iff, after leading whitespace, one sign and an optional 0x prefix, no digit of the radix follows |
| TeamRoute.ParseIntOfDigits | src/app/api/users/team/route.ts:30-31 | a string of decimal digits without the hex prefix parses to its decimal value |
| TeamRoute.ParseIntOfHex | src/app/api/users/team/route.ts:30-31 | '0x' followed by hex digits parses to their value in radix sixteen |
| TeamRoute.DigitStartsBody | src/app/api/users/team/route.ts:30-31 | a string starting with a digit has no whitespace or sign to skip |
| TeamRoute.ParseIntOfBody | src/app/api/users/team/route.ts:30-31 | a decimal body that is all digits parses to its value |
| TeamRoute.DigitRunOfDigits | src/app/api/users/team/route.ts:30-31 | the digit run of an all-digit string is all of it |
| TeamRoute.ParseDefaults | src/app/api/users/team/route.ts:30-31 | the defaults '50' and '0' parse to 50 and 0 |
| TeamRoute.ParseTwoDigits | src/app/api/users/team/route.ts:30-31 | two digits parse to tens times ten plus units |
| TeamRoute.DecimalOfTwo | src/app/api/users/team/route.ts:30-31 | two decimal digits are worth tens times ten plus units |
| TeamRoute.ParseOneDigit | src/app/api/users/team/route.ts:30-31 | one digit parses to its value |
| TeamRoute.ParseIntNaN | src/app/api/users/team/route.ts:30-31 | a string starting with any other character is NaN |
| TeamRoute.ParseHex20 | src/app/api/users/team/route.ts:30-31 | '0x20' parses to 32, not 0 |
| TeamRoute.ParseHexPrefixOnly | src/app/api/users/team/route.ts:30-31 | a hex prefix with no hex digit after it, '0x' or '0Xg', is NaN |
| TeamRoute.OrDefault | src/app/api/users/team/route.ts:30-31 | the parameter, or the default when it is missing or empty (a definition; no contract) |
| TeamRoute.Limit | src/app/api/users/team/route.ts:30 | the limit is the parsed parameter (default '50', a hex numeral read in radix sixteen) capped at 100, and NaN exactly when the parse is NaN |
| TeamRoute.Offset | src/app/api/users/team/route.ts:31 | the offset is `parseInt` of the parameter, default '0', hex numerals included |
| TeamRoute.HasMore | src/app/api/users/team/route.ts:154 | there are more results iff offset plus limit is below the total, and never when either is NaN |
| TeamRoute.DefaultPaging | src/app/api/users/team/route.ts:30-31 | with no paging parameters the page is the first 50, with more to come iff the total exceeds 50 |
| TeamRoute.HexLimit | src/app/api/users/team/route.ts:30 | a limit parameter of '0x20' gives a page of 32 |
| TeamRoute.IsAdmin | src/app/api/users/team/route.ts:33 | a caller is an admin iff the role is ADMIN or SUPER_ADMIN (a definition; no contract) |
| TeamRoute.Truthy | src/app/api/users/team/route.ts:72-79 | an id counts iff it is present and non-empty (a definition; no contract) |
| TeamRoute.TruthyIds | src/app/api/users/team/route.ts:72-79 | the set holds exactly the non-empty assignee ids of the column |
| TeamRoute.VisibleIds | src/app/api/users/team/route.ts:69-92 | the visible ids are exactly the assignees of tasks, the booking assignees and, when the caller has a department, the colleagues |
| TeamRoute.AddTruthy | src/app/api/users/team/route.ts:72-79 | the loop adds exactly the column's non-empty ids to the set |
| TeamRoute.AddAll | src/app/api/users/team/route.ts:91 | the loop adds every colleague id to the set |
| TeamRoute.TruthyIdsStep | src/app/api/users/team/route.ts:72-79 | one more row adds its id exactly when it is non-empty |
| TeamRoute.PrefixSetStep | src/app/api/users/team/route.ts:91 | one more colleague adds exactly its id |
| TeamRoute.TrimmedParam | src/app/api/users/team/route.ts:27-28 | a filter is in force only as the trimmed, non-empty parameter |
| TeamRoute.BuildWhere | src/app/api/users/team/route.ts:36-40 | the query is scoped to the tenant, excludes the caller, restricts to the visible ids when given, and carries the trimmed search and department |
| TeamRoute.Admits | src/app/api/users/team/route.ts:36-117 | the query's filter: tenant, not the caller, among the visible ids, the search on name, email or position, and the department (a definition; its meaning is `AdmitsExcludesCaller`) |
| TeamRoute.ContainsInsensitive | src/app/api/users/team/route.ts:108-110 | `contains` with `mode: 'insensitive'` on an optional column (a definition; no contract) |
| TeamRoute.AdmitsExcludesCaller | src/app/api/users/team/route.ts:36-40 | every admitted member is of the tenant, is not the caller, and is among the visible ids when those apply |
| TeamRoute.StatusIgnored | src/app/api/users/team/route.ts:29 | the status parameter changes nothing in the query |
| TeamRoute.Get | src/app/api/users/team/route.ts:21-166 | a server error iff a database call throws; otherwise the paging meta is always the parsed limit and offset; admins query the whole tenant; a non-admin with no visible ids gets an empty page without a query, otherwise a query restricted to exactly those ids; a queried page carries the count, the more flag and every member with status 'offline' |
| ProfileRoute.OptString | src/app/api/users/me/route.ts:8-16 | an optional string field passes iff it is absent or a string meeting its check, and is kept as given |
| ProfileRoute.NameOk | src/app/api/users/me/route.ts:9 | a name is 1 to 255 UTF-16 code units (a definition; no contract) |
| ProfileRoute.BioOk | src/app/api/users/me/route.ts:12 | a bio is at most 500 code units (a definition; no contract) |
| ProfileRoute.ShortOk | src/app/api/users/me/route.ts:13-14 | department and position are at most 100 code units (a definition; no contract) |
| ProfileRoute.PhoneOk | src/app/api/users/me/route.ts:15 | a phone number is at most 20 code units (a definition; no contract) |
| ProfileRoute.FieldChecks | src/app/api/users/me/route.ts:8-16 | one check outcome per schema field, in schema order |
| ProfileRoute.ParseProfileUpdate | src/app/api/users/me/route.ts:8-16 | the schema passes iff the body is an object and all seven field checks pass; a failure lists every offending field; every field a parsed update carries meets its bound: name 1-255, bio 500, department and position 100, phone 20 code units, a valid email and URL |
| ProfileRoute.ApplyUpdate | src/app/api/users/me/route.ts:74-83 | each supplied field overwrites its column, an absent one leaves it, and id, email and role never change |
| ProfileRoute.ApplyUpdateIdempotent | src/app/api/users/me/route.ts:74-83 | applying the same update twice is applying it once, and an update carrying only an email changes nothing |
| ProfileRoute.ProfileStore.constructor | src/app/api/users/me/route.ts:22-56 | the store starts with the given users and an empty audit log |
| ProfileRoute.ProfileStore.Get | src/app/api/users/me/route.ts:22-56 | a server error iff the lookup throws; otherwise the caller's row iff it exists, else not found |
| ProfileRoute.ProfileStore.Put | src/app/api/users/me/route.ts:62-121 | an unreadable body is a server error, a schema failure a bad request with its issues and a different email forbidden, each writing nothing; a missing row or a throwing update is a server error with nothing written; otherwise exactly the caller's row is updated, and then either one PROFILE_UPDATED audit entry carrying the input is appended and the new row returned, or the audit call throws and the answer is a server error with the row already written |
| ProfileRoute.UpdateKeepsEmailAndRole | src/app/api/users/me/route.ts:68-83 | no update changes any user's email or role |
| ProfileRoute.ChangesEmail | src/app/api/users/me/route.ts:69 | `input.email && input.email !== user.email` (a definition; no contract) |
| EmailVerification.MatchesPattern | src/app/api/user/verification/email/route.ts:25 | the regular expression stated declaratively: one '@' after a non-empty local part, a dot with a character on each side in the domain, no whitespace (a definition; no contract) |
| EmailVerification.CheckEmail | src/app/api/user/verification/email/route.ts:25 | the scanning form of the test (a definition; its meaning is `CheckEmailIff`) |
| EmailVerification.CheckEmailIff | src/app/api/user/verification/email/route.ts:25 | the scanning check accepts exactly the strings the regular expression matches |
| EmailVerification.PatternPassesCheck | src/app/api/user/verification/email/route.ts:25 | every match of the pattern passes the check |
| EmailVerification.CheckedMatchesPattern | src/app/api/user/verification/email/route.ts:25 | every string passing the check matches the pattern |
| EmailVerification.PatternExamples | src/app/api/user/verification/email/route.ts:25 | the empty string, an address without a dotted domain and one with two '@' are rejected |
| EmailVerification.ReadEmail | src/app/api/user/verification/email/route.ts:22-23 | the trimmed email is read iff the body is an object with a string email; a null body, or an email that is neither a string nor null, throws |
| EmailVerification.VerificationService.constructor | src/app/api/user/verification/email/route.ts:58-84 | no audit entry and no mail yet |
| EmailVerification.VerificationService.Post | src/app/api/user/verification/email/route.ts:10-95 | no tenant context is a server error; a denied rate limit is a 429; a missing or malformed email is invalid; a valid one is handled as Issue says; only a sent request records anything |
| EmailVerification.VerificationService.Issue | src/app/api/user/verification/email/route.ts:29-94 | no database gives the simulated answer; a throwing user lookup a server error; a missing user not found; a throwing tenant-and-email lookup a server error; an email owned by another user of the tenant 'in use'; otherwise success, with the token only in development, the audit entry expiring 24 hours later unless the audit call fails, and the mail only when SMTP is set and sending works; nothing is recorded unless it succeeds |
| EmailVerification.IssueResponse | src/app/api/user/verification/email/route.ts:29-94 | the answer for a well-formed address, in the handler's order: simulated without a database, a server error on a throwing user lookup, not found, a server error on a throwing email lookup, in use, else sent with the token only in development (a definition; it is the ensures of `Issue`) |
| EmailVerification.Recorded | src/app/api/user/verification/email/route.ts:58-84 | the audit entry unless that call fails, and the mail when SMTP is set and sending works (a definition; used by `Post`) |
| EmailVerification.Rule | src/app/api/user/verification/email/route.ts:18 | five requests per hour per client address (a definition; no contract) |
| EmailVerification.PlainChar | src/app/api/user/verification/email/route.ts:25 | the class `[^\s@]` (a definition; no contract) |
| Csrf.IsSameOrigin | src/lib/security/csrf.ts:1-11 | an unparseable request URL fails; a missing or empty Origin passes; otherwise it passes iff the Origin parses to the request's protocol and host |
| Csrf.OwnOriginAccepted | src/lib/security/csrf.ts:5-7 | an Origin with the request's own protocol and host passes |
| Csrf.ForeignOriginRefused | src/lib/security/csrf.ts:6-7 | an Origin differing in protocol or host fails |
| RouteEnv.NoOriginPasses | src/app/api/user/security/authenticator/route.ts:12 | a request without an Origin header passes the guard whenever its URL parses, whether or not the check module loads |
| RouteEnv.BodyOrEmpty | src/app/api/user/security/2fa/route.ts:25 | an unparseable body reads as the empty object; a parsed one as itself |
| RouteEnv.HasDb | src/app/api/user/security/2fa/route.ts:22-23 | `Boolean(NETLIFY_DATABASE_URL || DATABASE_URL)`, the `if (!hasDb)` guard: either variable non-empty (a definition; no contract) |
| RouteEnv.CrossOriginRefused | src/app/api/user/security/authenticator/route.ts:12 | the CSRF check refuses only when its module loads and reports a foreign origin (a definition; no contract) |
| RouteEnv.IdString | src/app/api/user/security/authenticator/route.ts:29 | `String(ctx.userId)` is the id, or "undefined" when there is none |
| MfaRecords.Guard | src/app/api/user/security/authenticator/route.ts:9-20 | a missing tenant context is a server error, a refused origin forbidden, a denied rate limit 429; the handler goes on iff none of these applies |
| MfaRecords.MfaStore.constructor | src/app/api/user/security/authenticator/route.ts:27-35 | the store starts with the given profile flags and no secrets, codes or audit entries |
| MfaRecords.MfaStore.SetSecret | src/app/api/user/security/authenticator/route.ts:29 | only the user's secret is set |
| MfaRecords.MfaStore.StoreBackupCodes | src/app/api/user/security/authenticator/route.ts:30 | exactly the generated codes are stored for the user and returned |
| MfaRecords.MfaStore.ClearMfa | src/app/api/user/security/authenticator/route.ts:62 | the user's secret and codes are removed unless the call fails, in which case nothing changes |
| MfaRecords.MfaStore.EnsureProfile | src/app/api/user/security/authenticator/route.ts:33 | the upsert with an empty update creates a disabled profile row when none exists and leaves an existing one |
| MfaRecords.MfaStore.ForceDisabled | src/app/api/user/security/authenticator/route.ts:64 | the upsert leaves the user's two-factor flag false |
| MfaRecords.MfaStore.Log | src/app/api/user/security/authenticator/route.ts:35 | one audit entry is appended unless the audit call fails |
| AuthenticatorRoute.Post | src/app/api/user/security/authenticator/route.ts:7-42 | a failed guard answers with nothing written; without a database the fixed TEST enrolment; otherwise the new secret and five generated codes are stored, the profile row exists without enabling two-factor, an mfa.enroll entry is logged unless that fails, and the secret, URI and codes are returned; when storing the secret, generating the codes or the profile upsert throws, the answer is a server error and exactly the writes before that call have been made |
| AuthenticatorRoute.Delete | src/app/api/user/security/authenticator/route.ts:44-73 | a failed guard answers with nothing written; without a database a plain ok; otherwise the secret and codes are cleared unless that fails, two-factor is forced off and an mfa.remove entry is logged unless that fails; when the upsert throws, the answer is a server error after the clear, with the flag and the log untouched |
| AuthenticatorRoute.EnrollThenRemove | src/app/api/user/security/authenticator/route.ts:7-73 | enrolling and then removing leaves the user with no secret, no codes and two-factor off |
| AuthenticatorRoute.PostRule | src/app/api/user/security/authenticator/route.ts:18 | five enrolments per hour per client address (a definition; no contract) |
| AuthenticatorRoute.DeleteRule | src/app/api/user/security/authenticator/route.ts:55 | five removals per day per client address (a definition; no contract) |
| TwoFactorRoute.Post | src/app/api/user/security/2fa/route.ts:7-50 | a failed guard answers with nothing written; without a database a plain ok; a null body is a server error; a body with `enable: true` is sent to enrol first; any other body clears the secret and codes unless that fails; then an upsert that throws answers a server error with the flag and the audit log unchanged, and otherwise the flag is forced off, mfa.disable is logged unless that fails, and the answer is a plain ok |
| TwoFactorRoute.OnlyTrueEnables | src/app/api/user/security/2fa/route.ts:25-26 | only the boolean true asks to enable; a missing body, false or any other value disables |
| TwoFactorRoute.AsksToEnable | src/app/api/user/security/2fa/route.ts:26 | `body.enable === true` (a definition; its meaning is `OnlyTrueEnables`) |
| TwoFactorRoute.Rule | src/app/api/user/security/2fa/route.ts:18 | ten toggles per hour per client address (a definition; no contract) |
| MfaDisableRoute.Post | src/app/api/auth/mfa/disable/route.ts:7-57 | no tenant context is a server error and no user id unauthorized; then a denied rate limit, no database, a user lookup that throws (a server error) and a missing user are answered with nothing written; otherwise the secret and codes are cleared unless that fails, mfa.disable is logged unless that fails, and the profile flag is left alone |
| MfaDisableRoute.HasUserId | src/app/api/auth/mfa/disable/route.ts:10-12 | `ctx.userId ?? undefined` tested for truthiness (a definition; no contract) |
| MfaDisableRoute.Rule | src/app/api/auth/mfa/disable/route.ts:18 | five attempts per hour per client address (a definition; no contract) |
| SecuritySettings.ReplyData | src/hooks/useSecuritySettings.ts:35-39 | a network error or unreadable body fails with its message; an ok reply gives its body; a failed reply with a null body fails with the TypeError of reading `error`, otherwise with the string form of a truthy `error` of any type, or the fallback; the result is data exactly for an ok reply with a readable body |
| SecuritySettings.BackupCodesOf | src/hooks/useSecuritySettings.ts:46 | for an array, a code is listed iff it is a string item, and an array of strings is taken whole and in order; a falsy or missing `backupCodes` gives no codes |
| SecuritySettings.Strings | src/hooks/useSecuritySettings.ts:46 | a string is listed iff it is an item; when every item is a string the result is exactly their payloads in order; never longer than the list |
| SecuritySettings.StringsOfConcat | src/hooks/useSecuritySettings.ts:46 | the strings of two lists joined are the strings of each, joined, so order is kept |
| SecuritySettings.SetupOf | src/hooks/useSecuritySettings.ts:40-47 | a null body fails with the TypeError of reading `ok`; otherwise the setup data is accepted iff `ok`, `secret` and `uri` are all truthy, of any type, and then holds `secret` and `uri` exactly as given, with the codes; else 'Invalid MFA setup response' |
| SecuritySettings.NumericSecretAccepted | src/hooks/useSecuritySettings.ts:40-47 | `{ ok: true, secret: 12345, uri: 'otpauth://x' }` is accepted and the numeric secret copied as it is |
| SecuritySettings.SecuritySettingsState.constructor | src/hooks/useSecuritySettings.ts:26-28 | not loading, no error, no setup data |
| SecuritySettings.SecuritySettingsState.Start | src/hooks/useSecuritySettings.ts:31-32 | a call starts loading and clears the error |
| SecuritySettings.SecuritySettingsState.Finish | src/hooks/useSecuritySettings.ts:50-56 | a call ends loading and records the failure's message, if any, as `String(e?.message || e)` does: 'Error' for an empty message |
| SecuritySettings.Caught | src/hooks/useSecuritySettings.ts:51 | `String(e?.message || e)` for a thrown Error: never empty; the message itself when it is not empty |
| SecuritySettings.SecuritySettingsState.EnrollMfa | src/hooks/useSecuritySettings.ts:30-57 | the result is the checked setup data, or what reading the reply throws (its error, 'Failed to enroll MFA (<status>)', or a TypeError on a null body), or the setup check's failure; a success stores the setup data and leaves no error; a failure keeps the old setup data and records the message as the catch converts it |
| SecuritySettings.SecuritySettingsState.VerifyMfa | src/hooks/useSecuritySettings.ts:59-88 | the result is the truthiness of the reply's `ok`, or what reading the reply throws (its error or 'Invalid code'), or the TypeError of reading `ok` on a null body; the setup data is dropped exactly when verification succeeds; the error is the thrown message as the catch converts it, or none |
| SecuritySettings.SecuritySettingsState.Confirm | src/hooks/useSecuritySettings.ts:90-167 | the shared shape of the last three calls: true on any ok reply, whose body is never read; otherwise the reply's error or the fallback, recorded as the error |
| SecuritySettings.SecuritySettingsState.DisableMfa | src/hooks/useSecuritySettings.ts:90-113 | true on any ok reply without reading its body; otherwise the reply's error, a TypeError on a null body, or 'Failed to disable MFA (<status>)' |
| SecuritySettings.SecuritySettingsState.SendVerificationEmail | src/hooks/useSecuritySettings.ts:115-140 | true on any ok reply without reading its body; otherwise the reply's error, a TypeError on a null body, or 'Failed to send verification email' |
| SecuritySettings.SecuritySettingsState.VerifyEmailToken | src/hooks/useSecuritySettings.ts:142-167 | true on any ok reply without reading its body; otherwise the reply's error, a TypeError on a null body, or 'Invalid or expired token' |
| SecuritySettings.SecuritySettingsState.ClearError | src/hooks/useSecuritySettings.ts:169 | only the error is cleared |
| SecuritySettings.SecuritySettingsState.ClearMfaSetup | src/hooks/useSecuritySettings.ts:170 | only the setup data is cleared |
| SecuritySettings.NotOkMessage | src/hooks/useSecuritySettings.ts:35-38 | a failed reply's message is the string form of its `error` when truthy, the fallback otherwise, and the TypeError of reading `error` when the body is null; a truthy string `error` is the message as it is |
| SecuritySettings.NumericErrorShown | src/hooks/useSecuritySettings.ts:35-38 | a failed reply `{ error: 5 }` throws '5', not the fallback |
| SecuritySettings.EmptyArrayErrorRecorded | src/hooks/useSecuritySettings.ts:35-38 | a failed reply `{ error: [] }` throws an empty message, which the catch records as 'Error' |
| SecuritySettings.MissingSecretRejected | src/hooks/useSecuritySettings.ts:40-42 | a reply without a secret is rejected even when `ok` and `uri` are set |
| MfaSetupModal.Sanitize | src/components/admin/profile/MfaSetupModal.tsx:94 | the code is the first six digits typed, or all of them when fewer, in order, and nothing else |
| MfaSetupModal.SanitizeKeepsCodes | src/components/admin/profile/MfaSetupModal.tsx:94 | a string of at most six digits is kept unchanged |
| MfaSetupModal.SanitizeIdempotent | src/components/admin/profile/MfaSetupModal.tsx:94 | sanitising twice is sanitising once |
| MfaSetupModal.Wizard.constructor | src/components/admin/profile/MfaSetupModal.tsx:20-24 | the wizard opens on the QR step with an empty code, no error and nothing copied |
| MfaSetupModal.Wizard.Scanned | src/components/admin/profile/MfaSetupModal.tsx:77 | the QR step moves to the verify step; code, error, close count and clipboard are unchanged |
| MfaSetupModal.Wizard.Back | src/components/admin/profile/MfaSetupModal.tsx:103 | the verify step goes back to the QR step keeping the code, the error, the close count and the clipboard |
| MfaSetupModal.Wizard.Type | src/components/admin/profile/MfaSetupModal.tsx:93-96 | typing stores the sanitised code and clears the error, on the same step, with the close count and clipboard unchanged |
| MfaSetupModal.Wizard.SubmitCode | src/components/admin/profile/MfaSetupModal.tsx:26-39 | a code of any length but six is refused with 'Please enter a 6-digit code' and no request; a six-digit code is verified: success moves to the backup step, a false reply stays, a reply whose body is JSON null shows the 'Cannot read properties of null' message, a failure shows the error message or 'Invalid code'; whenever a request is made the hook ends not loading, with the error the hook records and the setup data dropped exactly when verification succeeded; the code, close count and clipboard are never changed |
| MfaSetupModal.Wizard.CopyBackupCodes | src/components/admin/profile/MfaSetupModal.tsx:41-45 | on the backup step, where the button is, the clipboard receives the backup codes joined by newlines; step, code, error and close count are unchanged |
| MfaSetupModal.Wizard.Complete | src/components/admin/profile/MfaSetupModal.tsx:47-49 | Done calls onClose once, leaving step, code, error and clipboard unchanged |
| MfaSetupModal.Wizard.Dismiss | src/components/admin/profile/MfaSetupModal.tsx:52 | closing the dialog calls onClose once and keeps the step, code, error and clipboard |
| SuperAdminSecurity.PathParts | src/components/admin/settings/SuperAdminSecurityModal.tsx:49 | the section is the first dot-separated piece and the key the second, or 'undefined' when there is none |
| SuperAdminSecurity.Update | src/components/admin/settings/SuperAdminSecurityModal.tsx:46-53 | the edited key holds the new value; every other key of the section and every other section keep their values |
| SuperAdminSecurity.UpdateCommutes | src/components/admin/settings/SuperAdminSecurityModal.tsx:46-53 | edits of two different paths can be made in either order |
| SuperAdminSecurity.SameSectionCommutes | src/components/admin/settings/SuperAdminSecurityModal.tsx:46-53 | two different keys of one section can be edited in either order |
| SuperAdminSecurity.UpdateTwice | src/components/admin/settings/SuperAdminSecurityModal.tsx:46-53 | two edits of one section are the section with both keys set |
| SuperAdminSecurity.OtherSectionsCommute | src/components/admin/settings/SuperAdminSecurityModal.tsx:46-53 | edits of two different sections can be made in either order |
| SuperAdminSecurity.UpdateOverwrites | src/components/admin/settings/SuperAdminSecurityModal.tsx:46-53 | a second edit of the same path overwrites the first |
| SuperAdminSecurity.Shown | src/components/admin/settings/SuperAdminSecurityModal.tsx:99-124 | a field shows its pending value when one is set and not null, otherwise the loaded setting |
| SuperAdminSecurity.MapNonEmpty | src/components/admin/settings/SuperAdminSecurityModal.tsx:110-111 | the kept pieces are non-empty and no more than the input |
| SuperAdminSecurity.MapNonEmptyFrom | src/components/admin/settings/SuperAdminSecurityModal.tsx:110-111 | every kept piece is the mapping of some input piece |
| SuperAdminSecurity.TrimNonEmpty | src/components/admin/settings/SuperAdminSecurityModal.tsx:110-111 | `map(trim).filter(Boolean)` keeps only non-empty entries |
| SuperAdminSecurity.TrimNonEmptyEntries | src/components/admin/settings/SuperAdminSecurityModal.tsx:110-111 | each kept entry is trimmed and holds no comma |
| SuperAdminSecurity.ParseIpList | src/components/admin/settings/SuperAdminSecurityModal.tsx:110-111 | the parsed list holds only non-empty, trimmed entries without commas |
| SuperAdminSecurity.IpListRoundTrip | src/components/admin/settings/SuperAdminSecurityModal.tsx:110-111 | a list of trimmed, non-empty, comma-free entries shown joined by ', ' and read back is the same list |
| SuperAdminSecurity.EmptyIpList | src/components/admin/settings/SuperAdminSecurityModal.tsx:110-111 | an empty field gives an empty list |
| SuperAdminSecurity.TrimNonEmptyPrefixed | src/components/admin/settings/SuperAdminSecurityModal.tsx:110-111 | entries with one space put in front trim back to the entries |
| SuperAdminSecurity.SplitJoin | src/components/admin/settings/SuperAdminSecurityModal.tsx:110-111 | splitting the joined list at commas gives the first entry and the others each with a leading space |
| SuperAdminSecurity.EditablePaths | src/components/admin/settings/SuperAdminSecurityModal.tsx:99-124 | the two super-admin toggles are editable iff the user is a super admin, and no other super-admin path ever is |
| SuperAdminSecurity.SecurityModal.constructor | src/components/admin/settings/SuperAdminSecurityModal.tsx:14-23 | super admin iff the role is SUPER_ADMIN; nothing loaded, pending or reported |
| SuperAdminSecurity.SecurityModal.Load | src/components/admin/settings/SuperAdminSecurityModal.tsx:25-44 | a step-up reply asks for the OTP; an ok reply with a body becomes the settings; anything else changes only the loading flag; the error, the saving flag and the callback records never change |
| SuperAdminSecurity.SecurityModal.Edit | src/components/admin/settings/SuperAdminSecurityModal.tsx:46-53 | an edit of a shown field updates exactly that pending path; without the super-admin role the super-admin section stays untouched; nothing but the pending edits changes |
| SuperAdminSecurity.SecurityModal.Save | src/components/admin/settings/SuperAdminSecurityModal.tsx:55-80 | the whole pending map is sent, with the OTP header iff an OTP is given; a step-up reply asks for the OTP and keeps everything; success stores the reply, empties the pending map, reports it to onSaved and closes; any other failure keeps the edits and sets the error to the reply's truthy `error` value as it is, of any type, or 'Failed to save' |
| SuperAdminSecurity.SecurityModal.Close | src/components/admin/settings/SuperAdminSecurityModal.tsx:89 | the Close and Cancel buttons call onClose once and change nothing else |
| LicenseStep.RequiredFields | src/components/portal/business-setup/steps/LicenseVerificationStep.tsx:30-41 | the name is always required; the license number only for an existing business; passport and date of birth together, exactly for an individual; the department for everyone else |
| LicenseStep.NameLabel | src/components/portal/business-setup/steps/LicenseVerificationStep.tsx:78-82 | 'Name' for an individual, 'Proposed Business Name' for a new business, 'Business Name' otherwise |
| LicenseStep.NamePlaceholder | src/components/portal/business-setup/steps/LicenseVerificationStep.tsx:84-88 | 'Enter your full name' for an individual, otherwise the same text as the label |
| LicenseStep.SetupWizard.constructor | src/components/portal/business-setup/steps/LicenseVerificationStep.tsx:22 | the wizard context starts with the given form, no completed step and no errors |
| LicenseStep.LicenseVerificationStep.constructor | src/components/portal/business-setup/steps/LicenseVerificationStep.tsx:23-24 | no lookup running and no lookup result |
| LicenseStep.LicenseVerificationStep.Validate | src/components/portal/business-setup/steps/LicenseVerificationStep.tsx:30-47 | the step is valid iff every field its business type requires is filled; a valid step clears the errors and marks step 3 complete; an invalid one changes nothing |
| LicenseStep.LicenseVerificationStep.Lookup | src/components/portal/business-setup/steps/LicenseVerificationStep.tsx:49-76 | a lookup runs iff both the license number and the country are set; a found license with data fills the name, expiry and activities and is kept as the result; any other reply clears the result and leaves the form; the spinner is off afterwards |
| LicenseStep.LicenseVerificationStep.NameFieldDisabled | src/components/portal/business-setup/steps/LicenseVerificationStep.tsx:128 | the name field is locked iff a lookup result is held |
| LicenseStep.LookupCompletesExisting | src/components/portal/business-setup/steps/LicenseVerificationStep.tsx:35-65 | a successful lookup with a non-empty name completes an existing business whose license number and department are set |
| LicenseStep.RequirementsDiffer | src/components/portal/business-setup/steps/LicenseVerificationStep.tsx:34-41 | an individual needs passport and date of birth, a new business the department, and an existing business cannot pass without a license number |
| EntitiesService.DisplayStatus | src/services/portal/entities.service.ts:51-52 | a PENDING or REQUIRES_CHANGES approval is shown in place of the entity's status; otherwise the entity's own status |
| EntitiesService.PendingApproval | src/services/portal/entities.service.ts:51 | the approval is PENDING or REQUIRES_CHANGES (a definition; no contract) |
| EntitiesService.OfTenant | src/services/portal/entities.service.ts:26-28 | the `where: { tenantId }` filter (a definition; no contract) |
| EntitiesService.IsActive | src/services/portal/entities.service.ts:71-76 | the tenant and an ACTIVE or VERIFIED status (a definition; no contract) |
| EntitiesService.NonEmpty | src/services/portal/entities.service.ts:59-61 | `v \|\| undefined`: an empty string is dropped, any other value kept |
| EntitiesService.ToListItem | src/services/portal/entities.service.ts:54-62 | id, name, country and creation date are copied; the status is the display status; legal form and approval status are kept iff non-empty |
| EntitiesService.ListItems | src/services/portal/entities.service.ts:47 | one item per row, in order, each the row's identity with its display status |
| EntitiesService.ListItemsAre | src/services/portal/entities.service.ts:47 | the i-th item is the i-th row's list item |
| EntitiesService.ListAllEntities | src/services/portal/entities.service.ts:24-64 | every listed item is the list item of one of the tenant's rows |
| EntitiesService.AllComplete | src/services/portal/entities.service.ts:24-64 | every row of the tenant, pending or not, appears in the full list |
| EntitiesService.ActiveItem | src/services/portal/entities.service.ts:78-83 | an active entity carries its id, name, raw status and country and nothing else |
| EntitiesService.ActiveItems | src/services/portal/entities.service.ts:89 | one item per row, in order |
| EntitiesService.ListActiveEntities | src/services/portal/entities.service.ts:69-90 | every listed item is an ACTIVE or VERIFIED entity of the tenant with its raw status and no approval status |
| EntitiesService.ActiveComplete | src/services/portal/entities.service.ts:69-90 | every ACTIVE or VERIFIED entity of the tenant appears in the active list |
| EntitiesService.PendingShowsApproval | src/services/portal/entities.service.ts:51-61 | an active entity whose approval requires changes is listed as REQUIRES_CHANGES |
| PortalAvatar.Initials | src/components/portal/profile/Avatar.tsx:43-49 | the initials are never longer than two characters |
| PortalAvatar.InitialsOfPieces | src/components/portal/profile/Avatar.tsx:44-47 | a name with two or more whitespace-separated pieces gives the upper-cased first letters of the first and the last piece |
| PortalAvatar.InitialsFirstAndLast | src/components/portal/profile/Avatar.tsx:44-47 | words joined by spaces give the first letters of the first and the last word, whatever lies between |
| PortalAvatar.InitialsOneWord | src/components/portal/profile/Avatar.tsx:48 | a single word gives its first two characters, upper-cased |
| PortalAvatar.InitialsBlank | src/components/portal/profile/Avatar.tsx:48 | a blank name gives the first two raw characters, upper-cased |
| PortalAvatar.GradientIndex | src/components/portal/profile/Avatar.tsx:63 | an empty name has no index (NaN); otherwise the index is the first UTF-16 code unit modulo 6 |
| PortalAvatar.Gradient | src/components/portal/profile/Avatar.tsx:54-65 | a non-empty name always gets one of the six gradients; an empty one gets none |
| PortalAvatar.GradientByFirstChar | src/components/portal/profile/Avatar.tsx:63 | names with the same first character get the same gradient |
| PortalAvatar.Render | src/components/portal/profile/Avatar.tsx:67-111 | the size class follows the size, 'md' by default; a picture is shown iff a non-empty src is given, otherwise the initials on the name's gradient; a status dot with the size's indicator class and the status colour, 'online' by default, appears iff asked for |
| PortalAvatar.SizeClass | src/components/portal/profile/Avatar.tsx:21-25 | `SIZE_CLASSES` (a definition; no contract) |
| PortalAvatar.IndicatorClass | src/components/portal/profile/Avatar.tsx:27-31 | `STATUS_INDICATOR_CLASSES` (a definition; no contract) |
| PortalAvatar.StatusColor | src/components/portal/profile/Avatar.tsx:33-38 | `STATUS_COLORS` (a definition; no contract) |
| PortalAvatar.Defaults | src/components/portal/profile/Avatar.tsx:70-72 | with only a name the avatar is medium, shows initials on a gradient, and has no status dot |
| HeaderAvatar.FirstOf | src/components/admin/layout/Header/UserProfileDropdown/Avatar.tsx:21-22 | the first character of the i-th piece, or nothing when the piece is missing or empty |
| HeaderAvatar.Initials | src/components/admin/layout/Header/UserProfileDropdown/Avatar.tsx:19-24 | the initials have one or two characters, and none only for the empty name |
| HeaderAvatar.InitialsOfPieces | src/components/admin/layout/Header/UserProfileDropdown/Avatar.tsx:20-23 | two or more non-empty pieces give the upper-cased first letters of the first two |
| HeaderAvatar.InitialsFirstTwo | src/components/admin/layout/Header/UserProfileDropdown/Avatar.tsx:20-23 | words joined by spaces give the first letters of the first two words, whatever follows |
| HeaderAvatar.SplitOfWords | src/components/admin/layout/Header/UserProfileDropdown/Avatar.tsx:20 | words joined by single spaces split back into those words |
| HeaderAvatar.InitialsOneWord | src/components/admin/layout/Header/UserProfileDropdown/Avatar.tsx:21-23 | a single word gives only its first letter |
| HeaderAvatar.InitialsBlank | src/components/admin/layout/Header/UserProfileDropdown/Avatar.tsx:23 | a blank name falls back to its first two raw characters, upper-cased |
| HeaderAvatar.InitialsTwoWords | src/components/admin/layout/Header/UserProfileDropdown/Avatar.tsx:20-23 | two words separated by a space give their first letters |
| HeaderAvatar.JaneDoe | src/components/admin/layout/Header/UserProfileDropdown/Avatar.tsx:19-24 | "Jane Doe" shows "JD" |
| HeaderAvatar.InitialsThreeWords | src/components/admin/layout/Header/UserProfileDropdown/Avatar.tsx:20-23 | on three words the header takes the first two letters and the portal avatar the first and the last |
| HeaderAvatar.AvatarsDisagree | src/components/admin/layout/Header/UserProfileDropdown/Avatar.tsx:22 | on "Ann Bo Cy" the header shows "AB" and the portal avatar "AC" |
| HeaderAvatar.Render | src/components/admin/layout/Header/UserProfileDropdown/Avatar.tsx:26-48 | the size class follows the size, 'md' by default; a picture iff a non-empty src is given, otherwise the initials; a status dot with the status colour, 'online' by default, iff asked for |
| HeaderAvatar.SizeClass | src/components/admin/layout/Header/UserProfileDropdown/Avatar.tsx:13-17 | `sizeMap` (a definition; no contract) |
| HeaderAvatar.StatusColor | src/components/admin/layout/Header/UserProfileDropdown/Avatar.tsx:40-42 | the status dot's colour class (a definition; no contract) |
| Footer.Coalesce | src/components/ui/optimized-footer.tsx:12-16 | `a ?? b`: the setting when present, otherwise the prop |
| Footer.OrElse | src/components/ui/optimized-footer.tsx:39-40 | `v \|\| fallback`: a non-empty value, otherwise the fallback |
| Footer.Resolve | src/components/ui/optimized-footer.tsx:9-16 | each of name, logo, email, phone and legal links comes from the organisation settings when present there, otherwise from the props, and the name defaults to 'Accounting Firm' |
| Footer.NoProviderKeepsProps | src/components/ui/optimized-footer.tsx:9-16 | without settings the footer shows its props, with the default name |
| Footer.FullSettingsIgnoreProps | src/components/ui/optimized-footer.tsx:12-16 | complete settings make the props irrelevant |
| Footer.EmptyNameSettingWins | src/components/ui/optimized-footer.tsx:12 | an empty name in the settings still replaces the prop, since `??` only skips a missing one |
| Footer.Initial | src/components/ui/optimized-footer.tsx:18 | `w[0]`: the first character, or nothing for an empty piece |
| Footer.Take | src/components/ui/optimized-footer.tsx:18 | `slice(0, 2)`: the first n elements, or all when fewer |
| Footer.Firsts | src/components/ui/optimized-footer.tsx:18 | one first character per piece, in order |
| Footer.InitialsOfWords | src/components/ui/optimized-footer.tsx:18 | the badge holds at most two characters |
| Footer.Initials | src/components/ui/optimized-footer.tsx:18 | the badge of any name holds at most two characters |
| Footer.InitialsOfOne | src/components/ui/optimized-footer.tsx:18 | a single piece gives its first character, upper-cased |
| Footer.InitialsOfMany | src/components/ui/optimized-footer.tsx:18 | two or more pieces give the first characters of the first two |
| Footer.InitialsEmpty | src/components/ui/optimized-footer.tsx:18 | an empty name shows 'A' |
| Footer.InitialsFirstTwoWords | src/components/ui/optimized-footer.tsx:18 | a name of two words and more shows the first letters of the first two |
| Footer.SplitTwoThenRest | src/components/ui/optimized-footer.tsx:18 | two space-free words and a rest split into the two words followed by the rest's pieces |
| Footer.InitialsTwoWords | src/components/ui/optimized-footer.tsx:18 | two words separated by one space show both first letters |
| Footer.InitialsDoubleSpace | src/components/ui/optimized-footer.tsx:18 | two words separated by two spaces show only the first word's letter, since the empty piece between them counts |
| Footer.TermsHref | src/components/ui/optimized-footer.tsx:19 | the terms link, or '/terms' when it is missing or empty |
| Footer.PrivacyHref | src/components/ui/optimized-footer.tsx:20 | the privacy link, or '/privacy' when it is missing or empty |
| Footer.PhoneHref | src/components/ui/optimized-footer.tsx:39 | 'tel:' and the phone when it is set, otherwise the default number |
| Footer.EmailHref | src/components/ui/optimized-footer.tsx:40 | 'mailto:' and the email when it is set, otherwise the default address |
| Footer.PhoneLinkDialsShownNumber | src/components/ui/optimized-footer.tsx:39 | a set phone is both dialled and shown |
| Footer.EmailLinkMatchesText | src/components/ui/optimized-footer.tsx:40 | the mail link always targets the address shown |
| Footer.Render | src/components/ui/optimized-footer.tsx:21-93 | the footer shows the resolved name; a logo image iff a non-empty logo URL resolves, with alt '<name> logo', otherwise the initials badge; and the contact and legal links as the helpers say |
| Footer.DefaultFooter | src/components/ui/optimized-footer.tsx:9-40 | with no settings and no props the footer shows 'Accounting Firm' with badge 'AF', the default phone and email, '/privacy' and '/terms' |
| Footer.DefaultInitials | src/components/ui/optimized-footer.tsx:18 | 'Accounting Firm' gives 'AF' |
| Version.WithV | src/lib/admin/version.ts:26-36 | the version always starts with 'v'; it is kept iff it already does, otherwise prefixed |
| Version.WithVIdempotent | src/lib/admin/version.ts:26-36 | prefixing twice is prefixing once |
| Version.WithVAbsorbsPrefix | src/lib/admin/version.ts:26-36 | a version with or without its leading 'v' shows the same |
| Version.AppVersion | src/lib/admin/version.ts:22-44 | the environment's version when `process` exists and it is set, else package.json's when set, else 'v0.0.0' |
| Version.AppVersionStartsWithV | src/lib/admin/version.ts:22-44 | every version shown starts with 'v' |
| Version.EnvVersionWins | src/lib/admin/version.ts:24-27 | a set environment version wins whatever package.json says |
| Version.NoProcessUsesPackage | src/lib/admin/version.ts:24 | without `process` the environment variable is never read |
| Version.FormatDate | src/lib/admin/version.ts:52-76 | a blank or unparseable date shows 'Development', any other the formatter's 'month day, year' |
| Version.FormatDateDevelopmentIff | src/lib/admin/version.ts:52-76 | 'Development' is shown exactly for a blank or unparseable date |
| Version.FormatTime | src/lib/admin/version.ts:98-120 | a blank or unparseable time shows nothing, any other the formatter's hour and minute |
| Version.BuildDate | src/lib/admin/version.ts:83-90 | 'Development' without `process`, otherwise the formatted build date |
| Version.BuildTime | src/lib/admin/version.ts:127-134 | nothing without `process`, otherwise the formatted build time |
| Version.UnsetBuildStamp | src/lib/admin/version.ts:83-134 | unset build variables show 'Development' and no time |
| Version.JoinTwo | src/lib/admin/version.ts:148-152 | two parts joined by the separator |
| Version.JoinThree | src/lib/admin/version.ts:148-152 | three parts joined by the separator |
| Version.CompleteBuildInfo | src/lib/admin/version.ts:142-153 | version and date joined by ' • ', with the time after another ' • ' only when there is one |
| Version.BuildInfoStartsWithVersion | src/lib/admin/version.ts:142-153 | the build info always begins with the version and its bullet |
| Version.IsDevelopment | src/lib/admin/version.ts:160-166 | NODE_ENV is 'development', and never without `process` (a definition; its meaning is `ModesExclusive`) |
| Version.IsProduction | src/lib/admin/version.ts:172-177 | NODE_ENV is 'production', and never without `process` (a definition; its meaning is `ModesExclusive`) |
| Version.ModesExclusive | src/lib/admin/version.ts:160-177 | development and production exclude each other, and neither holds without `process` |
| Version.VersionString | src/lib/admin/version.ts:185-189 | the version followed by '(Production)' in production and '(Development)' otherwise |
| Version.VersionStringProductionIff | src/lib/admin/version.ts:185-189 | the label says Production exactly in production |
| Version.TestEnvLabelledDevelopment | src/lib/admin/version.ts:160-189 | a test environment is labelled Development although `isDevelopment` is false |
| Analytics.Shaped | src/components/portal/business-setup/services/analytics.ts:89-101 | the event carries the wire name and the time; its properties are the caller's keys plus `source`, with `source` always 'business_setup' and every other value as given |
| Analytics.CallerSourceOverwritten | src/components/portal/business-setup/services/analytics.ts:95-98 | a caller's own `source` is replaced, and no key is added or lost |
| Analytics.NoPropertiesIsEmpty | src/components/portal/business-setup/services/analytics.ts:95-98 | no properties and an empty object send the same event, holding only the source |
| Analytics.ModalOpenedProps | src/components/portal/business-setup/services/analytics.ts:108-110 | `{ source }`, 'dashboard' by default |
| Analytics.ModalSourceLost | src/components/portal/business-setup/services/analytics.ts:95-110 | the modal's own source is overwritten, so opening from a URL and from the dashboard send the same event |
| Analytics.DepartmentSearchedProps | src/components/portal/business-setup/services/analytics.ts:123-127 | the query's UTF-16 length and the result count, never the text |
| Analytics.DepartmentSearchedHidesQuery | src/components/portal/business-setup/services/analytics.ts:123-127 | queries of equal length send the same event, and every property but the source is a number |
| Analytics.StringArray | src/components/portal/business-setup/services/analytics.ts:151 | the names as a JSON array, one string per name, in order |
| Analytics.ValidationFailedProps | src/components/portal/business-setup/services/analytics.ts:149-154 | the field names and their count |
| Analytics.ValidationCountMatches | src/components/portal/business-setup/services/analytics.ts:149-154 | the count sent always equals the length of the list sent |
| Analytics.BusinessSetupAnalytics.constructor | src/components/portal/business-setup/services/analytics.ts:63-77 | the console tracker is current and nothing has been sent |
| Analytics.BusinessSetupAnalytics.SetTracker | src/components/portal/business-setup/services/analytics.ts:82-84 | later events go to the new tracker and nothing sent moves |
| Analytics.BusinessSetupAnalytics.Track | src/components/portal/business-setup/services/analytics.ts:89-101 | exactly one shaped event is delivered, to the current tracker, and every event sent carries the business-setup source |
| Analytics.BusinessSetupAnalytics.ModalOpenedEvent | src/components/portal/business-setup/services/analytics.ts:108-110 | one modal-opened event shaped from `{ source }` |
| Analytics.BusinessSetupAnalytics.TabSwitchedEvent | src/components/portal/business-setup/services/analytics.ts:113-115 | one tab-switched event with the tab name |
| Analytics.BusinessSetupAnalytics.CountrySelectedEvent | src/components/portal/business-setup/services/analytics.ts:118-120 | one country-selected event with the country |
| Analytics.BusinessSetupAnalytics.DepartmentSearchedEvent | src/components/portal/business-setup/services/analytics.ts:123-127 | one department-searched event with the query length and the count |
| Analytics.BusinessSetupAnalytics.LicenseLookupStartedEvent | src/components/portal/business-setup/services/analytics.ts:131-133 | one lookup-started event with the country |
| Analytics.BusinessSetupAnalytics.LicenseLookupSucceededEvent | src/components/portal/business-setup/services/analytics.ts:135-140 | one lookup-succeeded event with the duration and the auto-filled flag |
| Analytics.BusinessSetupAnalytics.LicenseLookupFailedEvent | src/components/portal/business-setup/services/analytics.ts:142-146 | one lookup-failed event with the error code |
| Analytics.BusinessSetupAnalytics.ValidationFailedEvent | src/components/portal/business-setup/services/analytics.ts:149-154 | one validation-failed event with the names and their count |
| Analytics.BusinessSetupAnalytics.SetupCompletedEvent | src/components/portal/business-setup/services/analytics.ts:157-163 | one setup-completed event with business type, country and duration |
| Analytics.BusinessSetupAnalytics.SetupFailedEvent | src/components/portal/business-setup/services/analytics.ts:166-171 | one setup-failed event with the error code and message |
| Analytics.BusinessSetupAnalytics.FlowAbandonedEvent | src/components/portal/business-setup/services/analytics.ts:174-179 | one flow-abandoned event with the last interaction and the time spent |
| Analytics.SwitchThenTrack | src/components/portal/business-setup/services/analytics.ts:82-101 | after a switch the next event reaches the new tracker |

## Left out

- Rendering: JSX markup, CSS, toasts, screen-reader announcements, focus handling, body-scroll locking and DOM listeners are not modelled. What a component shows is kept only where a property depends on it, as a `View` or `Rendered` value.
- `window.confirm`: modelled as a boolean input.
- Scheduling: `setTimeout`, debounce and React effect scheduling are not modelled. An effect is a method the caller runs after the state change that triggers it.
- Concurrency: async interleaving is not modelled. A second `initialize` racing the first, overlapping saves and requests that settle out of order are all outside the model; each action is a synchronous `Begin*` followed by one `Complete*`.
- Database, sessions and HTTP: `fetch`, Prisma and next-auth sessions are inputs, given as a stored row or none, an outcome value, or an optional user id. Query filters are predicates. The database's `orderBy`, `take`, `skip` and `distinct` are not modelled, and rows arrive in the order the query returns them. A database or hub call that throws is an input (a boolean, or a step saying which call throws) wherever the handler answers with a server error.
- Rate limiter: `applyRateLimit` is a function parameter, and an exception from it is a value the handlers ignore.
- Audit log and mail: each `logAudit` and mail call is modelled by whether it fails. Where the source wraps the call in `try {} catch {}` the failure is ignored. Where the call is awaited inside the handler's own `try`, as in the profile update, the failure gives a server error after the earlier writes. The entries and mails that are written are fields of the store classes.
- Server-error bodies: the `ServerError` answers of the MFA routes (`MfaRecords`), `EmailVerification`, `NotificationPreferences`, `ProfileRoute` and `TeamRoute` carry no message. Each of those handlers' 500 text is a fixed string, such as 'Failed to set up authenticator' and 'Failed to remove authenticator'. `MenuRoute.ServerError` does carry its message, and `Get`, `Put` and `Delete` state it.
- MenuRoute: a `session.user` without an `id` is not modelled. The handlers would then query with `userId: undefined`.
- `@/lib/mfa` internals: TOTP secret generation, backup-code generation and `clearUserMfa` are not modelled. Their results and failures are inputs.
- zod: `.email()` and `.url()` are predicate parameters. The other zod checks (types, enums, lengths, regular expressions) are written out.
- `new URL`, date parsing and the `Intl.DateTimeFormat` formatters: function parameters.
- The environment: `Date.now`, ISO timestamps, `randomBytes`, the environment variables and package.json's version are inputs.
- Generated ids: the `practice-${Date.now()}` id is the `freshId` parameter.
- Unicode case mapping: `toLowerCase` and `toUpperCase` are modelled for ASCII letters only. `trim` and `\s` use the ECMAScript whitespace set.
- UTF-16: strings are sequences of Unicode scalar values. Lengths that zod checks are counted in UTF-16 code units (`Text.Utf16Length`). Character indexing (`w[0]`, `substring`) is by scalar value, which agrees with JavaScript only on text inside the Basic Multilingual Plane. The portal avatar's gradient uses the first UTF-16 code unit.
- Numbers: section `order` and the other numeric fields are integers. Fractional JSON numbers are not modelled.
- JSON deep copies and zustand's persist middleware are not modelled. The persisted slice of the layout store is a function of the state; storage itself is not modelled.
- Analytics: the console tracker's logging and `identify` are not modelled. The modal-closed, department-selected and form-submitted event names are declared constants that no helper sends, so there is nothing to model.
- `formatDate`/`formatTime`: their `try`/`catch` cannot be reached once parsing is a total function returning an option, so it is not modelled.
- Test-only logic is not part of this model: the inline license sanitiser and the entity-name tag stripping exist only in route tests.
- Thin wrappers and presentation-only components are not part of this model: the businesses route, the settings provider, the theme hook and selectors, the bulk actions panel, the branding tab, the layouts and pages.
- EntitiesService.ListAllEntities: states that every listed item comes from one of the tenant's rows, and `AllComplete` that every such row is listed. It does not state that the rows keep their query order, because the query's `orderBy` is not modelled.
- EntitiesService.ListActiveEntities: states membership and completeness (`ActiveComplete`), but not order, for the same reason.
- SecuritySettings.BackupCodesOf: `data.backupCodes || []` keeps any truthy value as it is, a string or an object included, and keeps an array's non-string items. The model reads the codes as a list of strings, so it keeps the string items of an array and gives no codes for any other value. The wizard's `backupCodes.join` would throw on a non-array, and that is not modelled either.
- RoleForm.PermissionsByCategory: lists the categories in first-occurrence order. JavaScript's `Object.keys` puts integer-like keys first, such as '1' and '42', in ascending numeric order, and only then the other keys in insertion order; that reordering is not modelled. A category named after an `Object.prototype` member, such as 'constructor', 'toString' or '__proto__', finds an inherited truthy value in the accumulator, so the `push` throws; the model treats such a name as an ordinary category.
- RoleForm.FilteredCategories: uses the same first-occurrence order and ordinary treatment of every name, so both gaps of `PermissionsByCategory` apply to it as well.
- SecuritySettings.ReplyData: the TypeError message for a null body is the one V8 gives; other engines word it differently.
- SecuritySettings.Caught: a network or parse error with an empty message would be recorded as its own name, such as 'TypeError'. The model records 'Error' for every empty message.
- Json.ToJsString: JavaScript writes integers of 10^21 and more in exponent notation. The model writes all their digits.
- RoleForm.RoleFormState.Submit: the emitted event's `timestamp: Date.now()` is not modelled, and neither are the emitter's listeners. The returned `result.id` is a string input, so a reply without an id is not modelled.
- TeamRoute.Get: Prisma's own checks on `take` and `skip` are not modelled. A NaN or negative value there may make the query throw, and that case is covered only by the `dbFails` input, not derived from the parameters. The handler's `ZodError` branch cannot be reached, because nothing in the handler parses with zod.

## Findings

| source | as written | input that shows it | evidently intended | confidence | as-written member | corrected member |
|---|---|---|---|---|---|---|
| src/app/admin/users/components/workbench/UsersTableWrapper.tsx:59 | `'department' in result[0]` is evaluated whenever a department filter is set, even when the search, role and status filters left nothing; `result[0]` is then `undefined` and the `in` operator throws | an empty users array (or no array) with the department filter "Sales" | an empty list stays empty and the department filter is skipped | not executed | UsersTable.FilteredUsers, UsersTable.EmptyListThrows | UsersTable.FilteredUsersGuarded, UsersTable.FilteredUsersGuardedExact |
