# Portfolio site admin core, modelled in Dafny

This project models the deterministic core of a portfolio website. The site
is a React front end over a hosted Postgres database. The model covers four
parts.

- **The two services.** `ProjectService` and `SettingsService` become
  classes over in-memory tables, which map a row id to the stored row.
  Modules `Store`, `ProjectApi` and `SettingsApi` hold them.
  - Listings are filtered and ordered newest first.
  - A lookup by id maps "no matching row" to `null`.
  - Inserts use a fresh id and stamp both timestamps with the same time.
  - Updates are partial merges and re-stamp `updated_at`.
  - A toggle reads the row, then writes the complement of one flag.
  - Deletes are hard deletes.
- **The four admin editors.** The project, profile, contact and testimonial
  forms are classes holding a draft record (`ProjectEditor`,
  `ProfileEditor`, `ContactEditor`, `TestimonialAdmin`). Their handlers:
  - set one named field;
  - set one social link;
  - append a trimmed item, with or without a duplicate check;
  - remove an item by value or by index;
  - load a stored record, reading absent optional fields as `''`;
  - choose between create and update on submit.
- **The admin list views.** These are pure functions in `AdminDashboard` and
  `TestimonialAdmin`:
  - the case-insensitive search;
  - the published, featured and draft counters;
  - the tag chips of a project card;
  - the star row of a testimonial card;
  - the test that recognises a configuration error.
- **Small page helpers.** These are the admin password check
  (`AdminLoginPage`) and the case-study page (`CaseStudyPage`). The
  case-study page has these parts:
  - its two built-in entries;
  - the lookup with a fallback entry;
  - the numbering of the process steps;
  - the split of a result line into headline and body.

The record shapes live in `ProjectRecord`, `ProfileRecord`, `ContactRecord`
and `TestimonialRecord`. Each record has:

- an enumeration of its fields;
- a keyed getter and setter (`Get`, `With`);
- the partial-update payload (`Patch`, `Merge`, `Payload`);
- the load normalisation (`Normalized`);
- the editor's starting draft.

`Text` holds ASCII versions of the string built-ins the pages use: `trim`,
`toLowerCase`, `includes`, `split`, `join` and `parseInt`. `Lists` holds the
array expressions: `filter`, spread-append and `filter(...).length`.

The environment enters as parameters:

- A clock reading `now` is a natural number: a larger tick is a later time.
- A fresh row id is a parameter `id`, with the precondition that the table
  does not hold it.
- The error the backend would report is `fault`, or `readFault` and
  `writeFault` for the two calls of a toggle.
- The confirmation dialog's answer is the boolean `confirmed`.
- `VITE_ADMIN_PASSWORD` is an `Option<string>`.
- Local storage is a map field.
- Navigation and notices are returned as values.

## Model

| member | source | states |
|---|---|---|
| Store.InsertNewestFirst | src/services/projectService.ts:10 | placing a row into a newest-first list keeps it newest first, adds exactly that row and drops none |
| Store.InsertKeepsDistinct | src/services/projectService.ts:10 | placing a row whose id is new into a list of distinct ids keeps the ids distinct |
| Store.Select | src/services/projectService.ts:7-16 | the rows returned are exactly the table's rows that pass the filter, each once, ordered by `created_at` descending |
| Store.FindRow | src/services/projectService.ts:43-57 | `.eq('id', id)` plus a filter, then `.single()`: a row exactly when the id is stored and passes the filter, and then it is that row; otherwise no row, the PGRST116 case |
| Store.Insert | src/services/projectService.ts:79-94 | one row is added under the fresh id, with `created_at == updated_at == now` and the given data; every other row is unchanged |
| Store.Replace | src/services/projectService.ts:108-113 | the row with that id takes the new data and `updated_at = now`, keeps its `created_at`; no key is added or removed and every other row is unchanged |
| Store.Remove | src/services/projectService.ts:123-127 | the id is no longer a key; every other row is unchanged |
| Store.RemoveThenFind | src/services/projectService.ts:123-132 | after a delete, a lookup of the same id finds no row, whatever the filter |
| Store.TheKey | src/services/settingsService.ts:18-22 | an unfiltered `.single()` on a one-row table picks the only key there is |
| Fields.OrEmpty | src/pages/ProjectForm.tsx:91 | `x \|\| ''` on an optional text: the text when present, `''` when absent; the case-study page's `id \|\| ''` is the same function |
| ProjectRecord.Get | src/types/project.ts:27-48 | reading field `f` of a project gives a value of `f`'s kind; only an optional text field can read as absent |
| ProjectRecord.With | src/pages/ProjectForm.tsx:124-126 | `{ ...prev, [field]: value }`: field `f` reads `v` afterwards and every other field reads as before |
| ProjectRecord.Extensional | src/types/project.ts:27-48 | two projects that agree on every field are the same project |
| ProjectRecord.Merge | src/services/projectService.ts:105-110 | the fields listed in the payload take its values and every other field keeps the stored one |
| ProjectRecord.Payload | src/pages/ProjectForm.tsx:118 | `{ ...formData }` as an update payload holds exactly the draft's present fields, with the draft's values |
| ProjectRecord.MergeCompletePayload | src/services/projectService.ts:104-120 | updating any stored project with the payload of a draft that has no absent field leaves exactly the draft |
| ProjectRecord.Normalized | src/pages/ProjectForm.tsx:87-112 | the load effect: absent `subtitle`, `live_url`, `github_url` become `''`, every other field is copied, and the result has no absent field |
| ProjectRecord.NormalizedComplete | src/pages/ProjectForm.tsx:87-112 | loading a project with no absent field gives it back unchanged |
| ProjectRecord.InitialDraftFacts | src/pages/ProjectForm.tsx:23-44 | the starting draft: every text `''`, every list empty, `featured` and `published` false |
| ProfileRecord.Get | src/types/settings.ts:63-85 | reading a profile field gives a value of its kind; only optional texts can read as absent |
| ProfileRecord.With | src/pages/ProfileSettings.tsx:92-94 | field `f` reads `v` afterwards and every other field reads as before |
| ProfileRecord.Extensional | src/types/settings.ts:63-85 | two profiles that agree on every field are the same profile |
| ProfileRecord.Merge | src/services/settingsService.ts:58-63 | the payload's fields take its values, the others keep the stored ones |
| ProfileRecord.Payload | src/pages/ProfileSettings.tsx:87-90 | the submitted draft as a payload holds exactly its present fields |
| ProfileRecord.MergeCompletePayload | src/services/settingsService.ts:58-72 | updating with a complete draft's payload leaves exactly the draft |
| ProfileRecord.Normalized | src/pages/ProfileSettings.tsx:66-85 | absent `hero_image`, `location`, `phone`, `website`, `resume` become `''`; every other field, the social links and skills included, is copied |
| ProfileRecord.NormalizedComplete | src/pages/ProfileSettings.tsx:66-85 | loading a profile with no absent field gives it back unchanged |
| ProfileRecord.InitialDraftFacts | src/pages/ProfileSettings.tsx:20-42 | the starting draft: every text `''`, no skills, and the six platforms each with an empty link |
| ContactRecord.Get | src/types/settings.ts:87-101 | reading a contact-settings field gives a value of its kind; only optional texts can read as absent |
| ContactRecord.With | src/pages/ContactSettings.tsx:78-80 | field `f` reads `v` afterwards and every other field reads as before |
| ContactRecord.Extensional | src/types/settings.ts:87-101 | two contact settings that agree on every field are the same |
| ContactRecord.Merge | src/services/settingsService.ts:115-120 | the payload's fields take its values, the others keep the stored ones |
| ContactRecord.Payload | src/pages/ContactSettings.tsx:73-76 | the submitted draft as a payload holds exactly its present fields |
| ContactRecord.MergeCompletePayload | src/services/settingsService.ts:115-129 | updating with a complete draft's payload leaves exactly the draft |
| ContactRecord.Normalized | src/pages/ContactSettings.tsx:59-71 | absent `phone`, `address`, `contact_form_webhook`, `auto_reply_message` become `''`; `auto_reply_enabled` and the rest are copied |
| ContactRecord.NormalizedComplete | src/pages/ContactSettings.tsx:59-71 | loading settings with no absent field gives them back unchanged |
| ContactRecord.InitialDraftFacts | src/pages/ContactSettings.tsx:20-35 | the starting draft: every text `''`, `auto_reply_enabled` false, six empty social links |
| TestimonialRecord.Get | src/types/settings.ts:48-61 | reading a testimonial field gives a value of its kind; only the optional texts and the rating can read as absent |
| TestimonialRecord.With | src/pages/TestimonialManagement.tsx:316-401 | each field's `onChange`: that field reads `v` afterwards and every other field reads as before |
| TestimonialRecord.Extensional | src/types/settings.ts:48-61 | two testimonials that agree on every field are the same |
| TestimonialRecord.Merge | src/services/settingsService.ts:207-213 | the payload's fields take its values, the others keep the stored ones |
| TestimonialRecord.Payload | src/pages/TestimonialManagement.tsx:146 | the submitted draft as a payload holds exactly its present fields |
| TestimonialRecord.MergeCompletePayload | src/services/settingsService.ts:207-222 | updating with a complete draft's payload leaves exactly the draft |
| TestimonialRecord.RatingOrDefault | src/pages/TestimonialManagement.tsx:134 | `rating \|\| 5`: a set, non-zero rating is kept; an absent or zero one becomes 5; the result is never 0 |
| TestimonialRecord.Normalized | src/pages/TestimonialManagement.tsx:127-138 | `handleEdit`'s copy: absent `client_image` and `project_id` become `''`, the rating goes through `rating \|\| 5`, every other field is copied |
| TestimonialRecord.NormalizedComplete | src/pages/TestimonialManagement.tsx:127-138 | a testimonial with no absent field and a non-zero rating is copied unchanged |
| TestimonialRecord.InitialDraftFacts | src/pages/TestimonialManagement.tsx:24-34 | the starting draft: texts `''`, rating 5, not featured, published |
| Lists.Filter | src/pages/Admin.tsx:60-64 | `filter`: the kept elements, in order, as a subsequence; an element is kept iff it passes; a list that passes entirely is returned whole |
| Lists.RemoveValue | src/pages/ProjectForm.tsx:135-137 | `filter(x => x !== v)`: no copy of `v` is left, all other elements keep their multiplicity and order, and a duplicate-free list stays duplicate-free |
| Lists.RemoveAt | src/pages/ProjectForm.tsx:146-148 | `filter((_, i) => i !== index)`: exactly position `index` is deleted; an index outside the list changes nothing |
| Lists.AddUnique | src/pages/ProjectForm.tsx:128-133 | the list grows by one exactly when the trimmed input is non-empty and not yet present, and then the new last element is the trimmed input; the old elements stay in place; no duplicates are introduced |
| Lists.AddNonEmpty | src/pages/ProjectForm.tsx:139-144 | the list grows by one, the trimmed input, exactly when the trimmed input is non-empty, duplicates allowed |
| Lists.Count | src/pages/Admin.tsx:215 | `filter(p).length` is at most the length of the list |
| Lists.CountSplits | src/pages/Admin.tsx:215-243 | the counts of a test and of its negation add up to the length of the list |
| Lists.CountAll | src/pages/TestimonialManagement.tsx:226-253 | the count of a test equals the length exactly when every element passes |
| Text.Trim | src/pages/ProjectForm.tsx:129 | `trim()`: the input with its surrounding white space removed, so neither end of the result is white space, and it is empty exactly when the input is all white space |
| Text.TrimIdempotent | src/pages/ProjectForm.tsx:129 | trimming a trimmed text changes nothing |
| Text.Lower | src/pages/Admin.tsx:61 | `toLowerCase()`: the same length, with each ASCII capital lowered |
| Text.LowerAppend | src/pages/TestimonialManagement.tsx:106 | lowering a concatenation is concatenating the lowered parts |
| Text.Contains | src/pages/Admin.tsx:84 | `includes`: true exactly when the second text occurs at some offset of the first |
| Text.ContainsInfix | src/pages/Admin.tsx:84 | a text contains every text that sits inside it |
| Text.Split | src/pages/CaseStudy.tsx:241 | `split(' ')`: at least one piece, no piece contains the separator, joining the pieces gives the text back, and the text has no separator exactly when it is its only piece |
| Text.ParseInt | src/pages/TestimonialManagement.tsx:374 | `parseInt(text)`: a text of digits alone reads as its decimal value; an empty text, or one starting with anything but white space, a sign or a digit, reads as NaN |
| Text.Join | src/pages/CaseStudy.tsx:244 | `join(' ')`: no parts give `''`, one part gives itself, the first part starts the result, and over parts without the separator the result holds it iff there are two parts or more |
| Text.ParseDecimal | src/pages/CaseStudy.tsx:197 | the decimal rendering of a natural number parses back to that number |
| ProjectApi.FlipFeatured | src/services/projectService.ts:145-148 | `featured: !project.featured`: the featured flag is negated and no other field changes |
| ProjectApi.FlipPublished | src/services/projectService.ts:169-172 | the published flag is negated and no other field changes |
| ProjectApi.ToggleFeaturedTwice | src/services/projectService.ts:135-158 | two featured toggles of a row restore the table, apart from that row's `updated_at` |
| ProjectApi.TogglePublishedTwice | src/services/projectService.ts:161-182 | two published toggles of a row restore the table, apart from that row's `updated_at` |
| ProjectApi.ProjectService.GetProjects | src/services/projectService.ts:6-23 | on success, every project when `includeUnpublished` and only the published ones otherwise, newest first; a backend error gives "Failed to fetch projects: " and the message |
| ProjectApi.ProjectService.GetFeaturedProjects | src/services/projectService.ts:26-39 | exactly the projects that are both featured and published, newest first; the error message on failure |
| ProjectApi.ProjectService.GetProjectById | src/services/projectService.ts:42-58 | a project exactly when the id is stored and the project is published, and then that row; `null` otherwise; the error message on failure |
| ProjectApi.ProjectService.GetProjectByIdAdmin | src/services/projectService.ts:61-76 | a project exactly when the id is stored, draft or not; `null` only for a missing id |
| ProjectApi.ProjectService.CreateProject | src/services/projectService.ts:79-101 | on success the table gains the row under the fresh id with both timestamps `now` and the given data, and that row is returned; on failure the table is unchanged |
| ProjectApi.ProjectService.UpdateProject | src/services/projectService.ts:104-120 | with the id stored, the row becomes the merge of the payload and is re-stamped, and it is returned; with no such row the single-row read fails and nothing changes |
| ProjectApi.ProjectService.DeleteProject | src/services/projectService.ts:123-132 | on success the id is no longer in the table and no other row changes; a missing id is not an error |
| ProjectApi.ProjectService.ToggleFeatured | src/services/projectService.ts:135-158 | a read error is passed on; a missing id fails with "Project not found"; otherwise only that row's featured flag is negated and the row re-stamped, unless the write fails, which changes nothing |
| ProjectApi.ProjectService.TogglePublished | src/services/projectService.ts:161-182 | as the featured toggle, for the published flag |
| SettingsApi.FlipFeatured | src/services/settingsService.ts:243-246 | the testimonial's featured flag is negated and no other field changes |
| SettingsApi.FlipPublished | src/services/settingsService.ts:266-269 | the testimonial's published flag is negated and no other field changes |
| SettingsApi.ToggleFeaturedTwice | src/services/settingsService.ts:235-256 | two featured toggles restore the table, apart from the row's `updated_at` |
| SettingsApi.TogglePublishedTwice | src/services/settingsService.ts:258-279 | two published toggles restore the table, apart from the row's `updated_at` |
| SettingsApi.ProfileUpdated | src/services/settingsService.ts:58-72 | the one-row profile table after an update: still one row, under the same key, holding the merge, with its creation time kept and `updated_at = now` |
| SettingsApi.ContactUpdated | src/services/settingsService.ts:115-129 | the same for the one-row contact table |
| SettingsApi.TestimonialUpdated | src/services/settingsService.ts:207-222 | only the testimonial with that id changes: it holds the merge and is re-stamped |
| SettingsApi.SettingsService.GetProfile | src/services/settingsService.ts:18-32 | the profile exactly when the table holds one row, and then that row; `null` for none or several (PGRST116); the error message on any other failure |
| SettingsApi.SettingsService.CreateProfile | src/services/settingsService.ts:34-56 | a new profile row under the fresh id with both timestamps `now`; the other tables are untouched |
| SettingsApi.SettingsService.UpdateProfile | src/services/settingsService.ts:58-72 | with exactly one row, that row takes the merge and is re-stamped; otherwise the single-row read fails and the table is unchanged |
| SettingsApi.SettingsService.GetContactSettings | src/services/settingsService.ts:75-89 | the settings exactly when the table holds one row; `null` for none or several |
| SettingsApi.SettingsService.CreateContactSettings | src/services/settingsService.ts:91-113 | a new contact row under the fresh id with both timestamps `now` |
| SettingsApi.SettingsService.UpdateContactSettings | src/services/settingsService.ts:115-129 | as the profile update, on the contact row |
| SettingsApi.SettingsService.GetTestimonials | src/services/settingsService.ts:132-149 | all testimonials or only published ones, newest first |
| SettingsApi.SettingsService.GetFeaturedTestimonials | src/services/settingsService.ts:151-164 | exactly those featured and published, newest first |
| SettingsApi.SettingsService.GetTestimonialById | src/services/settingsService.ts:166-181 | the testimonial exactly when the id is stored, published or not; `null` otherwise |
| SettingsApi.SettingsService.CreateTestimonial | src/services/settingsService.ts:183-205 | a new row under the fresh id with both timestamps `now` and the given data |
| SettingsApi.SettingsService.UpdateTestimonial | src/services/settingsService.ts:207-222 | with the id stored, only that row takes the merge and is re-stamped; otherwise the call fails and nothing changes |
| SettingsApi.SettingsService.DeleteTestimonial | src/services/settingsService.ts:224-233 | the id is gone afterwards and nothing else changes |
| SettingsApi.SettingsService.ToggleTestimonialFeatured | src/services/settingsService.ts:235-256 | a missing id fails with "Testimonial not found"; otherwise only the featured flag of that row is negated and the row re-stamped |
| SettingsApi.SettingsService.ToggleTestimonialPublished | src/services/settingsService.ts:258-279 | the same for the published flag |
| ProjectEditor.NewRouteIsEditingAsWritten | src/pages/ProjectForm.tsx:20 | as written, the page counts as editing when the route gives no id |
| ProjectEditor.SubmitAsWritten | src/pages/ProjectForm.tsx:114-122 | as written, submit creates exactly when the route id is the text `'new'`, and otherwise updates with the whole draft: the route id when there is one, and the id `undefined` when there is none |
| ProjectEditor.NewRouteNeverCreatesAsWritten | src/pages/ProjectForm.tsx:114-122 | as written, a submit on the new-project route, which gives no id, never asks for a create: it asks for an update of the id `undefined` |
| ProjectEditor.IsEditingCases | src/pages/ProjectForm.tsx:20 | the corrected test is the written one with the missing id excluded; neither the missing id nor `'new'` counts as editing |
| ProjectEditor.PreviewPath | src/pages/ProjectForm.tsx:172-176 | the preview opens `/case-study/<id>` exactly when the route id is present, non-empty and not `'new'`, so only while editing |
| ProjectEditor.ProjectForm.constructor | src/pages/ProjectForm.tsx:23-50 | the starting draft and four empty item inputs |
| ProjectEditor.ProjectForm.Load | src/pages/ProjectForm.tsx:87-112 | a fetched project replaces the draft with its normalised copy; no project leaves the draft as it was |
| ProjectEditor.ProjectForm.HandleInputChange | src/pages/ProjectForm.tsx:124-126 | field `f` takes `v` and no other field changes |
| ProjectEditor.ProjectForm.SetNewTag | src/pages/ProjectForm.tsx:47 | the tag input holds the typed text |
| ProjectEditor.ProjectForm.SetNewProcessStep | src/pages/ProjectForm.tsx:48 | the step input holds the typed text |
| ProjectEditor.ProjectForm.SetNewResult | src/pages/ProjectForm.tsx:49 | the result input holds the typed text |
| ProjectEditor.ProjectForm.SetNewImage | src/pages/ProjectForm.tsx:50 | the image input holds the typed text |
| ProjectEditor.ProjectForm.AddTag | src/pages/ProjectForm.tsx:128-133 | a non-empty trimmed tag not yet present is appended and the input cleared; otherwise the draft and the input stay as they were; only `tags` can change; no duplicates are introduced |
| ProjectEditor.ProjectForm.RemoveTag | src/pages/ProjectForm.tsx:135-137 | every copy of the tag is removed, the rest keep their order, no other field changes |
| ProjectEditor.ProjectForm.AddProcessStep | src/pages/ProjectForm.tsx:139-144 | a non-empty trimmed step is appended, repeats allowed, and the input cleared; an empty one changes nothing |
| ProjectEditor.ProjectForm.RemoveProcessStep | src/pages/ProjectForm.tsx:146-148 | exactly position `i` of `process` goes; an index outside the list changes nothing |
| ProjectEditor.ProjectForm.AddResult | src/pages/ProjectForm.tsx:150-155 | as for process steps, on `results` |
| ProjectEditor.ProjectForm.RemoveResult | src/pages/ProjectForm.tsx:157-159 | as for process steps, on `results` |
| ProjectEditor.ProjectForm.AddImage | src/pages/ProjectForm.tsx:161-166 | as for tags, on the gallery `images` |
| ProjectEditor.ProjectForm.RemoveImage | src/pages/ProjectForm.tsx:168-170 | as for tags, on `images` |
| ProjectEditor.ProjectForm.HandleSubmit | src/pages/ProjectForm.tsx:114-122 | with the corrected test, an update of the named project carrying every field of the draft, and a create of the draft otherwise |
| ProjectEditor.UpdateSavesDraft | src/pages/ProjectForm.tsx:86-122 | saving a draft as an update makes the row's data the draft; loading a complete project and saving it untouched writes back the same data |
| ProfileEditor.ProfileForm.constructor | src/pages/ProfileSettings.tsx:20-44 | the starting draft and an empty skill input |
| ProfileEditor.ProfileForm.Load | src/pages/ProfileSettings.tsx:66-85 | a fetched profile replaces the draft with its normalised copy; none leaves the draft |
| ProfileEditor.ProfileForm.HandleInputChange | src/pages/ProfileSettings.tsx:92-94 | field `f` takes `v` and no other field changes |
| ProfileEditor.ProfileForm.HandleSocialLinkChange | src/pages/ProfileSettings.tsx:96-104 | only that platform's link changes, and the platform is added when missing; other links and fields stay |
| ProfileEditor.ProfileForm.SetNewSkill | src/pages/ProfileSettings.tsx:44 | the skill input holds the typed text |
| ProfileEditor.ProfileForm.AddSkill | src/pages/ProfileSettings.tsx:106-111 | a non-empty trimmed skill not yet present is appended and the input cleared; otherwise nothing changes; no duplicates are introduced |
| ProfileEditor.ProfileForm.RemoveSkill | src/pages/ProfileSettings.tsx:113-115 | every copy of the skill is removed, order kept, no other field changes |
| ProfileEditor.ProfileForm.HandleSubmit | src/pages/ProfileSettings.tsx:54-55 | an update with the whole draft when a profile was fetched, a create of the draft otherwise |
| ProfileEditor.Saved | src/pages/ProfileSettings.tsx:54-55 | the table after a save: with one row, that row takes the draft's fields; otherwise a new row holding the draft |
| ProfileEditor.SaveThenLoad | src/pages/ProfileSettings.tsx:54-85 | saving into a table of at most one profile leaves exactly one profile, holding the draft, and loading it again shows the same draft |
| ContactEditor.ContactForm.constructor | src/pages/ContactSettings.tsx:20-35 | the starting draft |
| ContactEditor.ContactForm.Load | src/pages/ContactSettings.tsx:59-71 | fetched settings replace the draft with their normalised copy |
| ContactEditor.ContactForm.HandleInputChange | src/pages/ContactSettings.tsx:78-80 | field `f` takes `v` and no other field changes |
| ContactEditor.ContactForm.HandleSocialLinkChange | src/pages/ContactSettings.tsx:82-90 | only that platform's link changes; other links and fields stay |
| ContactEditor.ContactForm.HandleSubmit | src/pages/ContactSettings.tsx:45-48 | an update when settings were fetched, a create otherwise |
| ContactEditor.Saved | src/pages/ContactSettings.tsx:45-48 | the table after a save: the one row merged, or a new row |
| ContactEditor.SaveThenLoad | src/pages/ContactSettings.tsx:45-71 | saving into a table of at most one row leaves one row holding the draft, which loads back unchanged |
| TestimonialAdmin.FilterTestimonials | src/pages/TestimonialManagement.tsx:105-109 | the shown testimonials are a subsequence of the loaded ones, and one is shown iff its client name, company or text contains the term, ignoring case |
| TestimonialAdmin.EmptySearchKeepsAll | src/pages/TestimonialManagement.tsx:105-109 | an empty term shows every testimonial, in order |
| TestimonialAdmin.SearchFindsClientName | src/pages/TestimonialManagement.tsx:106 | a testimonial whose lowered client name contains the lowered term is shown |
| TestimonialAdmin.LongerTermShowsFewer | src/pages/TestimonialManagement.tsx:105-109 | extending the term can only hide testimonials, never show new ones |
| TestimonialAdmin.NarrowedMatch | src/pages/TestimonialManagement.tsx:105-109 | one testimonial matching `term + more` matches `term` |
| TestimonialAdmin.PublishedCount | src/pages/TestimonialManagement.tsx:239 | the published counter never exceeds the "Total" counter, `testimonials.length` (line 226) |
| TestimonialAdmin.FeaturedCount | src/pages/TestimonialManagement.tsx:253 | the featured counter never exceeds the number of loaded testimonials |
| TestimonialAdmin.CountersReachTotal | src/pages/TestimonialManagement.tsx:226-253 | the published counter equals the "Total" counter, `testimonials.length`, iff all are published, and the same for featured |
| TestimonialAdmin.Stars | src/pages/TestimonialManagement.tsx:502-510 | five stars; star `i` is filled iff `i < rating` |
| TestimonialAdmin.FilledStars | src/pages/TestimonialManagement.tsx:500-513 | the number of filled stars is the rating cut to 0..5 |
| TestimonialAdmin.StarRow | src/pages/TestimonialManagement.tsx:500-513 | `testimonial.rating && …`: five stars for a rating that is set and non-zero, no star row otherwise |
| TestimonialAdmin.StarRowFilled | src/pages/TestimonialManagement.tsx:500-513 | a card's filled stars: none when the row is hidden, otherwise the rating cut to 0..5 |
| TestimonialAdmin.FormRatingShown | src/pages/TestimonialManagement.tsx:374 | every rating the form produces through `\|\| 5` shows its star row |
| TestimonialAdmin.CountFilledPrefix | src/pages/TestimonialManagement.tsx:502-510 | a row of stars filled on exactly its first `n` positions has `n` filled stars |
| TestimonialAdmin.DeleteRequest | src/pages/TestimonialManagement.tsx:152-156 | a delete of that id is issued iff the dialog is confirmed |
| TestimonialAdmin.TestimonialEditor.constructor | src/pages/TestimonialManagement.tsx:19-34 | the starting draft, no id being edited, the form hidden, an empty search |
| TestimonialAdmin.TestimonialEditor.SetSearchTerm | src/pages/TestimonialManagement.tsx:268 | the search box holds the typed text |
| TestimonialAdmin.TestimonialEditor.StartCreating | src/pages/TestimonialManagement.tsx:205 | the form is shown; draft and editing id stay |
| TestimonialAdmin.TestimonialEditor.ResetForm | src/pages/TestimonialManagement.tsx:111-125 | the starting draft, the form hidden, no id being edited |
| TestimonialAdmin.TestimonialEditor.HandleEdit | src/pages/TestimonialManagement.tsx:127-141 | the draft becomes the testimonial's normalised copy, the editing id its id, and the form is shown |
| TestimonialAdmin.TestimonialEditor.HandleFieldChange | src/pages/TestimonialManagement.tsx:316-401 | the field's `onChange`: that field takes the value, no other field changes |
| TestimonialAdmin.TestimonialEditor.SetRatingInput | src/pages/TestimonialManagement.tsx:374 | the rating becomes `parseInt(text) \|\| 5`, and no other field changes |
| TestimonialAdmin.TestimonialEditor.HandleSubmit | src/pages/TestimonialManagement.tsx:143-150 | an update of the edited id with the whole draft when an id is set, a create of the draft otherwise |
| TestimonialAdmin.EditSaveRoundTrip | src/pages/TestimonialManagement.tsx:127-150 | opening a complete, non-zero-rated testimonial and saving it untouched leaves its stored data as it was |
| AdminDashboard.FilterProjects | src/pages/Admin.tsx:60-64 | the shown projects are a subsequence of the loaded ones, and one is shown iff its title, category or some tag contains the term, ignoring case |
| AdminDashboard.EmptySearchKeepsAll | src/pages/Admin.tsx:60-64 | an empty term shows every project, in order |
| AdminDashboard.SearchFindsTag | src/pages/Admin.tsx:63 | a project with a tag containing the term is shown, whatever its title and category |
| AdminDashboard.PublishedCount | src/pages/Admin.tsx:215 | the published counter never exceeds the "Total Projects" counter, `projects.length` (line 202) |
| AdminDashboard.FeaturedCount | src/pages/Admin.tsx:229 | the featured counter never exceeds the number of loaded projects |
| AdminDashboard.DraftCount | src/pages/Admin.tsx:243 | the drafts counter never exceeds the number of loaded projects |
| AdminDashboard.PublishedPlusDrafts | src/pages/Admin.tsx:202-243 | published plus drafts equals the "Total Projects" counter, `projects.length`, and there are no drafts iff every project is published |
| AdminDashboard.IsEnvError | src/pages/Admin.tsx:84 | true iff the message contains "Missing Supabase environment variables" |
| AdminDashboard.EnvErrorRecognised | src/pages/Admin.tsx:84 | a message with the marker anywhere in it is recognised |
| AdminDashboard.DeleteRequest | src/pages/Admin.tsx:66-70 | a delete of that id is issued iff the dialog is confirmed |
| AdminDashboard.TagChips | src/pages/Admin.tsx:367-376 | the first `min(4, n)` tags are shown, and a "+(n-4) more" chip appears iff `n > 4` |
| AdminDashboard.ChipsAccountForAllTags | src/pages/Admin.tsx:367-376 | the shown chips and the hidden count add up to the number of tags |
| AdminLoginPage.ExpectedPassword | src/pages/AdminLogin.tsx:15 | the configured password when it is set and non-empty, `admin123` otherwise; never empty |
| AdminLoginPage.LoginPage.constructor | src/pages/AdminLogin.tsx:10 | an empty password field over the given storage |
| AdminLoginPage.LoginPage.SetPassword | src/pages/AdminLogin.tsx:10 | the field holds the typed text |
| AdminLoginPage.LoginPage.HandleLogin | src/pages/AdminLogin.tsx:13-24 | an exact match sets `admin_logged_in` to `'true'`, keeps every other entry and navigates to `/admin`; anything else leaves storage untouched and reports "Incorrect password" |
| AdminLoginPage.AcceptedPasswords | src/pages/AdminLogin.tsx:15-16 | with nothing configured exactly `admin123` logs in; with another password configured `admin123` no longer does |
| CaseStudyPage.IdIsKey | src/pages/CaseStudy.tsx:29-96 | the `id` written in each built-in entry is its key |
| CaseStudyPage.EntryFor | src/pages/CaseStudy.tsx:29-96 | the entry stored under a key carries that key as its `id` |
| CaseStudyPage.EntriesKeyedById | src/pages/CaseStudy.tsx:29-98 | the fallback key is a built-in key and no built-in key names an inherited object member |
| CaseStudyPage.LookupAsWritten | src/pages/CaseStudy.tsx:98 | as written: a built-in key gives its entry, an inherited member name gives that member, any other id gives the fallback entry |
| CaseStudyPage.ConstructorRouteFailsAsWritten | src/pages/CaseStudy.tsx:98 | as written, `/case-study/constructor` yields the inherited function and the page does not render |
| CaseStudyPage.Lookup | src/pages/CaseStudy.tsx:98 | corrected: the route id when it is a built-in key, and the fallback key for every other id, the absent one included |
| CaseStudyPage.ShownCaseStudy | src/pages/CaseStudy.tsx:98 | the case study shown carries the looked-up key as its id, and so the route id whenever that is a built-in key |
| CaseStudyPage.LookupAlwaysRenders | src/pages/CaseStudy.tsx:98 | the corrected lookup always renders, and it agrees with the written one on every id that is not an inherited member name |
| CaseStudyPage.NumberedSteps | src/pages/CaseStudy.tsx:194-200 | one numbered step per process step, in order, and step `i` carries the number `i + 1` |
| CaseStudyPage.StepLabelsDistinct | src/pages/CaseStudy.tsx:194-200 | no two steps carry the same number |
| CaseStudyPage.Headline | src/pages/CaseStudy.tsx:241 | `split(' ')[0]`: a prefix of the result with no space in it |
| CaseStudyPage.Body | src/pages/CaseStudy.tsx:244 | the rest after the headline, shorter than the result unless both are empty |
| CaseStudyPage.HeadlineAndBody | src/pages/CaseStudy.tsx:241-244 | a result with a space is headline, one space and body; one without is all headline with an empty body |
| CaseStudyPage.HeadlineBodyRejoin | src/pages/CaseStudy.tsx:241-244 | headline + `' '` + body gives back a result that has a space |
| CaseStudyPage.HeadlineNoSpace | src/pages/CaseStudy.tsx:241-244 | a result without a space is its own headline and has an empty body |

## Findings

| source | as written | input that shows it | evidently intended | confidence | as-written member | corrected member |
|---|---|---|---|---|---|---|
| src/pages/ProjectForm.tsx:20 | `isEditing = id !== 'new'` | the route `/admin/project/new` (src/App.tsx:27) has no `:id`, so `id` is `undefined` and `isEditing` is true; submit then updates the id `undefined` and never creates | the page creates on the new-project route and edits only a named project | not executed | ProjectEditor.NewRouteNeverCreatesAsWritten | ProjectEditor.ProjectForm.HandleSubmit |
| src/pages/CaseStudy.tsx:98 | `caseStudyData[id \|\| ''] \|\| caseStudyData['fintech-dashboard']` on a plain object | `/case-study/constructor`: the lookup finds the inherited `Object.prototype.constructor` function, which is truthy, so there is no fallback, and `caseStudy.tags.map` throws | every id the table does not hold shows the fallback entry | not executed | CaseStudyPage.ConstructorRouteFailsAsWritten | CaseStudyPage.LookupAlwaysRenders |

The rest of the model uses the corrected members. The project editor submits
through `IsEditing`, and the case-study page shows `ShownCaseStudy`, which
goes through `Lookup`.

## Left out

- The database client and HTTP: tables are in-memory maps. A backend error
  is an input (`fault`), and PGRST116 is the no-matching-row case.
- `crypto.randomUUID` and `new Date().toISOString()`: the fresh id and the
  clock are parameters. Freshness is a precondition, and timestamps are
  ticks that order as the ISO strings do.
- React and the browser are not modelled:
  - rendering, styling, icons and toasts;
  - react-query caching, loading flags and cache invalidation;
  - `window.confirm`, which is a boolean input;
  - navigation, which is a returned value.
  - The outcome of a mutation does not feed back into the editors. The
    testimonial form's reset after a successful save is `ResetForm`, which
    a caller invokes.
- The toggles as modelled run their read and write back to back. The race
  with other writers between the two calls is not modelled.
- `trim`, `toLowerCase` and `parseInt` are specified over ASCII. Unicode
  white space and case mapping belong to the JavaScript runtime.
- Text.ParseInt reads optional white space, an optional sign and decimal
  digits. The hex prefix, which JavaScript's `parseInt` without a radix
  accepts (`"0x1A"` reads as 26), is not modelled: a `type="number"` input
  cannot produce it.
- Route matching in src/App.tsx belongs to the router library. Only the
  fact that `/admin/project/new` supplies no `id` enters the model.
- ProjectApi.ProjectService.GetProjects and
  SettingsApi.SettingsService.GetTestimonials take `includeUnpublished` as
  a required argument. The source's default of `false` is the same call
  with `false` passed.
- SettingsApi.SettingsService.UpdateProfile and UpdateContactSettings: with
  zero or several rows the model fails and writes nothing. The update the
  database would apply to several rows without a filter is not modelled.
- ProjectApi.ProjectService.UpdateProject and
  SettingsApi.SettingsService.UpdateTestimonial require a payload whose
  values fit the fields' kinds. The TypeScript types give that; a payload
  with a wrongly typed value is not modelled.
- HandleFieldChange, HandleInputChange: a value of a kind that does not fit
  the field is excluded by a precondition. The call sites pass a value of
  the field's own kind, although the handlers are typed `any`.
- TestimonialAdmin.TestimonialEditor.SetRatingInput: a rating outside 1..5
  is kept as typed. The input's `min`/`max` attributes are enforced by the
  browser, which is not part of this model.
- Field names: the type files src/types/project.ts and
  src/types/settings.ts use camelCase (`heroImage`, `socialLinks`). The
  forms and services use snake_case (`hero_image`, `social_links`), and
  the model uses snake_case throughout. The profile and testimonial forms
  themselves write camelCase keys (`profileImage`, `clientName`). The model
  maps these to the same snake_case fields (`profile_image`, `client_name`)
  and does not reproduce the mismatch with the database columns.
- The case-study entries are stored as one function per field, each giving
  that field's value for either key. They are not stored as a dictionary
  value. The long texts are written as concatenations of shorter literals,
  but the texts are the same.
- Presentational and static files are not part of this model:
  src/components/Hero.tsx, About.tsx, Portfolio.tsx, Testimonials.tsx,
  Contact.tsx, src/pages/Index.tsx and AdminTest.tsx. Contact.tsx sends
  nothing anywhere; its only logic is a field setter and a reset.
- The `isLoading` branches and the empty-list messages of the admin pages.
