# CV builder: a verified model

CVGenerator is a small web application for building a CV. The user walks through
a wizard with three steps: `fill-form`, `processing` and `preview-customize`.
`fill-form` has four sub-steps: personal info, experience, education and skills.
Every navigation and every edit is saved to a server-side session, identified by
a random token. The document can be imported from a JSON file, or from a PDF
through an AI extraction service. Job descriptions can be rewritten by the AI
service. A Stripe payment unlocks an unwatermarked preview and the PDF download.

This project models the bookkeeping core of that application in Dafny and proves
properties of it:

- **The wizard hook** (`Wizard`): a class with the position
  `(currentStep, currentSubStep)`, the working document, the `isProcessing` flag,
  a count of pending processing timers, and the sequence of session updates it
  has queued for the server.
  - `nextStep` and `previousStep` are specified by the pure functions
    `Wizard.Next` and `Wizard.Previous`.
  - The 3000 ms timer is an explicit event, `Wizard.CvBuilder.ProcessingTimerFires`.
- **The in-memory store** (`Storage`): a class holding the user, session and payment maps.
  - Each `Map`'s insertion order is kept as a sequence of ids.
  - Lookups return the first match in that order.
  - An update key can be absent, present but `undefined`, or present with a value.
    The shallow merge therefore overwrites a field with `undefined`, as the
    source does.
- **The document validator** (`Schema`): the zod schemas over a loosely typed JSON
  value.
  - It yields the validated, normalised document or the first issue.
  - Serialising a valid document and validating it gives the document back.
- **The route handlers** (`Routes`): each handler is a guard-then-mutate method
  over the store. Stripe, the AI service, the random bytes and the clock are
  parameters.
- **The PDF service** (`PdfParser`): the `%PDF` magic-byte check, and the
  placeholder text built from the length of the buffer's base64 encoding
  (section 4 of RFC 4648).
- **The UI rules**:
  - the preview (`CvPreview`, over the generic `Grouping`);
  - the skills, experience and education forms (`SkillsForm`, `ExperienceForm`,
    `EducationForm`, over `FieldArray`);
  - the two step indicators (`ProgressSteps`, `SubSteps`);
  - the builder page (`BuilderPage`).

Some behaviour of the code is reproduced as written and stated as a property:

- A new session is stored with step `"personal-info"`, which is a sub-step name.
  After a reload the wizard therefore sits on an unknown step:
  - every progress step is pending (`ProgressSteps.StoredStepAllPending`);
  - the page shows no form (`BuilderPage.ReloadedNewSessionShowsNoForm`);
  - `nextStep` moves to `fill-form` (`Wizard.NextOutsideFillForm`).
- A PUT that omits `cvData` or a step field blanks it
  (`Routes.PutBlanksMissingKeys`, `Storage.UndefinedOverwrites`).
- `upload-pdf` returns the AI output without calling `cvDataSchema`
  (server/routes.ts:137-139), so a document the schema rejects still comes back
  with 200 (`Routes.UploadPdfDoesNotValidate`). `upload-json` does validate its
  input (`Routes.UploadJson`).

## Model

| member | source | states |
|---|---|---|
| Wrappers.Merge | server/storage.ts:82-86 | a key missing from the patch keeps the current value; a key present in the patch replaces it, even when its value is `undefined` |
| Schema.EmptyCvData | client/src/hooks/use-cv-builder.tsx:13-25 | the starting document has an empty summary and three empty lists |
| Schema.EmptyIsNotEmail | shared/schema.ts:56 | the empty string is not an e-mail address |
| Schema.RequiredString | shared/schema.ts:54 | a required string field is accepted iff the key is present, holds a string and that string is non-empty; the result is that string |
| Schema.EmailString | shared/schema.ts:56 | the e-mail field is accepted iff it holds a string with the shape of an address; the result is that string |
| Schema.OptionalString | shared/schema.ts:59 | an optional string is accepted iff it is missing or a string; missing gives `None` and a string gives itself |
| Schema.BooleanDefaultFalse | shared/schema.ts:67 | `isCurrent` is accepted iff it is missing or a boolean; missing gives `false` |
| Schema.LevelEnum | shared/schema.ts:83 | a level is accepted iff it is one of the four enum strings |
| Schema.ValidatePersonalInfo | shared/schema.ts:53-60 | every accepted personal-info object satisfies the personal-info schema |
| Schema.ValidateExperience | shared/schema.ts:62-69 | every accepted experience satisfies the experience schema |
| Schema.ValidateEducation | shared/schema.ts:71-79 | every accepted education entry satisfies the education schema |
| Schema.ValidateSkill | shared/schema.ts:81-85 | every accepted skill satisfies the skill schema |
| Schema.ValidateItems | shared/schema.ts:89-91 | an array is accepted iff each element is accepted at its own index; the output has the same length, element by element |
| Schema.ArrayDefaultEmpty | shared/schema.ts:89-91 | a missing list becomes `[]`; a present list must be an array and is validated element by element |
| Schema.PersonalInfoField | shared/schema.ts:88 | a missing `personalInfo` is reported as required at that key; a present one is validated at that path |
| Schema.ExperiencesField | shared/schema.ts:89 | the experiences list defaults to `[]` and every accepted element is a valid experience |
| Schema.EducationField | shared/schema.ts:90 | the education list defaults to `[]` and every accepted element is a valid education entry |
| Schema.SkillsField | shared/schema.ts:91 | the skills list defaults to `[]` and every accepted element is a valid skill |
| Schema.ValidateCvData | shared/schema.ts:87-92 | every accepted document satisfies the document schema |
| Schema.PersonalInfoRoundTrip | shared/schema.ts:53-60 | serialised personal info is accepted iff it is valid, and then it comes back unchanged |
| Schema.ExperienceRoundTrip | shared/schema.ts:62-69 | a serialised experience is accepted iff it is valid, and then it comes back unchanged |
| Schema.EducationRoundTrip | shared/schema.ts:71-79 | a serialised education entry is accepted iff it is valid, and then it comes back unchanged |
| Schema.SkillRoundTrip | shared/schema.ts:81-85 | a serialised skill is accepted iff it is valid, and then it comes back unchanged |
| Schema.ExperiencesRoundTrip | shared/schema.ts:89 | a serialised experience list is accepted iff every element is valid, and then it comes back unchanged |
| Schema.EducationRoundTripAll | shared/schema.ts:90 | a serialised education list is accepted iff every element is valid, and then it comes back unchanged |
| Schema.SkillsRoundTrip | shared/schema.ts:91 | a serialised skill list is accepted iff every element is valid, and then it comes back unchanged |
| Schema.CvDataRoundTrip | shared/schema.ts:87-92 | a serialised document is accepted iff it is valid, and then validation returns exactly that document |
| Schema.ValidateIdempotent | shared/schema.ts:87-92 | validating the serialisation of an already validated document accepts it and returns it unchanged |
| Schema.EmptyCvDataRejected | shared/schema.ts:54-58 | the all-empty starting document is rejected and does not satisfy the schema |
| Schema.MissingListsDefaultToEmpty | shared/schema.ts:89-91 | in an accepted document, each list missing from the input is `[]` |
| Schema.CvDataAcceptedIffAllElementsAre | shared/schema.ts:87-92 | a document object is accepted iff `personalInfo` is accepted and each list is missing or an array whose elements are all accepted |
| Schema.PersonalInfoAcceptedIff | shared/schema.ts:53-60 | personal info is accepted iff `fullName`, `title`, `phone` and `location` are non-empty strings, `email` is an address, and `summary` is missing or a string |
| Schema.ExperienceAcceptedIff | shared/schema.ts:62-69 | an experience is accepted iff `jobTitle`, `company`, `startDate` and `description` are non-empty strings and the optional fields have their types; a missing `isCurrent` gives `false` |
| Schema.EducationAcceptedIff | shared/schema.ts:71-79 | an education entry is accepted iff `institution`, `degree`, `field` and `startDate` are non-empty strings and the optional fields have their types; a missing `isCurrent` gives `false` |
| Schema.SkillAcceptedIff | shared/schema.ts:81-85 | a skill is accepted iff `name` and `category` are non-empty strings and `level` is one of the four levels |
| Schema.NoCrossFieldCheck | shared/schema.ts:62-79 | changing `isCurrent` or `endDate`, or `startDate` to any non-empty string, never makes a valid entry invalid |
| Schema.MissingEmailReported | shared/schema.ts:56 | a document whose personal info lacks `email` (with `fullName` and `title` filled in) is rejected with the issue at path `personalInfo.email` |
| Steps.IndexOf | client/src/hooks/use-cv-builder.tsx:105 | the result is -1 iff the id is absent; otherwise it is the first position holding the id |
| Steps.IndexOfDistinct | client/src/hooks/use-cv-builder.tsx:7-8 | in a list without repetitions, the lookup of the element at position k gives k |
| Steps.StepListsDistinct | client/src/hooks/use-cv-builder.tsx:7-8 | neither step list repeats an id |
| Steps.StepIndices | client/src/hooks/use-cv-builder.tsx:7-8 | the position of each step and sub-step id, and that `"personal-info"` is not a top-level step |
| Wizard.MergeCvDataProperties | client/src/hooks/use-cv-builder.tsx:87 | keys the patch does not carry keep their values, carried keys are replaced, merging twice equals merging once, and the empty patch changes nothing |
| Wizard.CvBuilder.constructor | client/src/hooks/use-cv-builder.tsx:28-32 | starts at `(fill-form, personal-info)` with the empty document, not processing, no token, nothing queued |
| Wizard.CvBuilder.InitializeSession | client/src/hooks/use-cv-builder.tsx:38-50 | a created session's token is stored; a failed request changes nothing |
| Wizard.CvBuilder.LoadSession | client/src/hooks/use-cv-builder.tsx:59-65 | a loaded session overwrites the document, the step and the sub-step wholesale |
| Wizard.CvBuilder.UpdateCvData | client/src/hooks/use-cv-builder.tsx:86-90 | the document becomes the shallow merge, and exactly one update is queued, carrying only that document |
| Wizard.CvBuilder.GoToStep | client/src/hooks/use-cv-builder.tsx:93-96 | sets the step with no validation and queues one update carrying only the step |
| Wizard.CvBuilder.GoToSubStep | client/src/hooks/use-cv-builder.tsx:98-101 | sets the sub-step with no validation and queues one update carrying only the sub-step |
| Wizard.CvBuilder.NextStep | client/src/hooks/use-cv-builder.tsx:103-125 | the new position and the queued updates are those of `Next`; `isProcessing` is raised and a timer started exactly when `Next` starts processing |
| Wizard.CvBuilder.PreviousStep | client/src/hooks/use-cv-builder.tsx:127-146 | the new position and the queued updates are those of `Previous` |
| Wizard.CvBuilder.ProcessingTimerFires | client/src/hooks/use-cv-builder.tsx:113-116 | the flag drops, one pending timer is used up, and the step becomes `preview-customize` with one step update queued |
| Wizard.WalkThrough | client/src/hooks/use-cv-builder.tsx:103-146 | from a fresh builder: three `nextStep` calls reach skills, a fourth enters processing, the timer reaches the preview, and two `previousStep` calls land on `(fill-form, skills)` |
| Wizard.NextAdvancesSubStep | client/src/hooks/use-cv-builder.tsx:104-108 | in `fill-form` before the last sub-step, `nextStep` advances the sub-step index by exactly one, keeps the step and queues one sub-step update |
| Wizard.ThreeNextsReachSkills | client/src/hooks/use-cv-builder.tsx:104-108 | three `nextStep` calls from the initial position reach `(fill-form, skills)` |
| Wizard.NextFromSkillsStartsProcessing | client/src/hooks/use-cv-builder.tsx:109-117 | at `(fill-form, skills)`, `nextStep` moves to `processing`, keeps the sub-step and starts the timer |
| Wizard.NextOutsideFillForm | client/src/hooks/use-cv-builder.tsx:118-124 | outside `fill-form` the sub-step is kept: `processing` moves on to `preview-customize`, `preview-customize` is a no-op, and an unknown step moves to `fill-form` |
| Wizard.PreviousInFillForm | client/src/hooks/use-cv-builder.tsx:128-133 | in `fill-form`, `previousStep` moves back one sub-step, and does nothing at `personal-info` or an unknown sub-step |
| Wizard.PreviousOutsideFillForm | client/src/hooks/use-cv-builder.tsx:134-145 | from `processing` it lands on `(fill-form, skills)`, queueing the step and then the sub-step; from `preview-customize` it gives `processing`; from an unknown step it does nothing |
| Wizard.ForwardThenBackLandsOnLastSubStep | client/src/hooks/use-cv-builder.tsx:109-145 | forward from skills and back again, or back twice from the preview, lands on the skills sub-step |
| Wizard.NavigationSendsPositionOnly | client/src/hooks/use-cv-builder.tsx:93-146 | a navigation call queues at most two updates, each carrying exactly one position field and never the document |
| Storage.StringOr | server/storage.ts:60-61 | `x \|\| d` on strings: a truthy value is kept; undefined or `""` gives the default |
| Storage.JsOrNull | server/storage.ts:63 | `x \|\| null` gives the string exactly when it is present and non-empty |
| Storage.NewSession | server/storage.ts:54-70 | the stored session carries the given id, token and document; falsy steps become `"personal-info"`, `isPaid` is true only when given `true`, a missing intent id becomes null, and both timestamps are the creation time |
| Storage.ApplySessionPatch | server/storage.ts:82-86 | every field is the merge of the stored value and the patch key; id, token and creation time are kept, and `updatedAt` is refreshed |
| Storage.NewPayment | server/storage.ts:98-111 | the stored payment keeps the intent id, amount and status; a falsy session id becomes null and a falsy currency becomes `"usd"` |
| Storage.MergeUser | server/storage.ts:31-35 | an existing user gets every present key from the payload, keeps its id and creation time, and has `updatedAt` refreshed |
| Storage.NewUser | server/storage.ts:39-48 | a new user gets the payload's id (or a fresh one when it is falsy), null for each falsy optional field, and equal timestamps |
| Storage.FirstWithToken | server/storage.ts:72-76 | the result is none iff no session has exactly that token; a found session has that token and is in the list |
| Storage.FirstWithTokenIsFirstMatch | server/storage.ts:72-76 | the session found is preceded only by sessions with other tokens |
| Storage.FirstWithIntent | server/storage.ts:113-117 | the result is none iff no payment has that intent id; a found payment has it and is in the list |
| Storage.FirstWithIntentIsFirstMatch | server/storage.ts:113-117 | the payment found is preceded only by payments with other intent ids |
| Storage.MemStorage.constructor | server/storage.ts:20-22 | the store starts with three empty maps |
| Storage.MemStorage.GetUser | server/storage.ts:24-26 | returns the user stored under the id, or none when there is none |
| Storage.MemStorage.UpsertUser | server/storage.ts:28-52 | an existing id is merged in place; otherwise a new user is stored under its own id; no user is removed |
| Storage.MemStorage.CreateCvSession | server/storage.ts:54-70 | stores the new session under the id, changes no other entry, and appends a new id to the iteration order |
| Storage.MemStorage.GetCvSessionByToken | server/storage.ts:72-76 | returns the first session in insertion order whose token is exactly the argument |
| Storage.MemStorage.UpdateCvSession | server/storage.ts:78-89 | an unknown id fails with "Session not found" and leaves the store unchanged; otherwise only that session is replaced, by the merge |
| Storage.MemStorage.MarkSessionAsPaid | server/storage.ts:91-96 | equals the update `{isPaid: true, paymentIntentId}`: the flag is true and the document and steps are untouched |
| Storage.MemStorage.CreatePayment | server/storage.ts:98-111 | stores the new payment under the id, changes no other entry, and appends a new id to the iteration order |
| Storage.MemStorage.GetPaymentByIntentId | server/storage.ts:113-117 | returns the first payment in insertion order with that intent id |
| Storage.CreatedSessionIsLast | server/storage.ts:68 | a session stored under a new id comes last in iteration order |
| Storage.FirstWithTokenAppend | server/storage.ts:72-76 | appending a session keeps an earlier match and otherwise finds the new session iff its token matches |
| Storage.LookupAfterCreate | server/storage.ts:54-76 | after a creation, a token nobody had finds the new session, and a token an earlier session carries still finds that earlier session |
| Storage.MarkPaidIdempotent | server/storage.ts:91-96 | marking paid twice equals marking paid once at the later time; `isPaid` stays true |
| Storage.UndefinedOverwrites | server/storage.ts:82-86 | a patch key present with `undefined` blanks the stored field |
| Storage.NewSessionDefaults | server/storage.ts:60-66 | with no steps, flag or intent id given, a session gets both steps `"personal-info"`, `isPaid` false and a null intent id |
| Storage.FoundSessionIsStored | server/storage.ts:72-76 | the session a token lookup finds is the one stored under its own id |
| Hex.HexEncode | server/routes.ts:34 | hex encoding has two lower-case hex digits per byte |
| Hex.HexRoundTrip | server/routes.ts:34 | decoding the hex encoding gives the bytes back |
| Hex.HexEncodeInjective | server/routes.ts:34 | different byte strings give different tokens |
| Hex.TokenShape | server/routes.ts:34 | a token from 32 random bytes is 64 hex characters |
| PdfParser.ValidatePdf | server/services/pdf-parser.ts:24-28 | true iff the buffer has at least 4 bytes and they are `0x25 0x50 0x44 0x46` |
| PdfParser.ShortBufferRejected | server/services/pdf-parser.ts:27 | buffers shorter than 4 bytes are rejected |
| PdfParser.OnlyPrefixMatters | server/services/pdf-parser.ts:27 | bytes after index 3 never change the result |
| PdfParser.MagicAccepted | server/services/pdf-parser.ts:26-27 | any buffer starting with `%PDF` is accepted |
| PdfParser.Base64Encode | server/services/pdf-parser.ts:14 | the encoding consists of base64 alphabet characters and `=` |
| PdfParser.Base64Length | server/services/pdf-parser.ts:14 | the encoding has length 4 * ceil(n / 3) |
| PdfParser.NatToDecimal | server/services/pdf-parser.ts:17 | the decimal rendering is non-empty, all digits, with no leading zero |
| PdfParser.DecimalRoundTrip | server/services/pdf-parser.ts:17 | reading the decimal rendering gives the number back |
| PdfParser.ExtractTextLength | server/services/pdf-parser.ts:14-17 | the placeholder is the prefix, the decimal padded base64 length 4 * ceil(n / 3), and the suffix |
| PdfParser.ExtractTextIgnoresContents | server/services/pdf-parser.ts:14-17 | buffers of equal length give equal placeholders |
| PdfParser.ExtractTextDistinguishesLengths | server/services/pdf-parser.ts:14-17 | buffers with different padded base64 lengths give different placeholders |
| Routes.NewSessionDocumentIsEmpty | server/routes.ts:35-47 | the stored document is the serialised empty client document, and the schema rejects it |
| Routes.NewSessionShape | server/routes.ts:34-56 | a new session has a 64-character token, the empty document, both steps `"personal-info"`, `isPaid` false, a null intent id, and equal timestamps |
| Routes.CreateSession | server/routes.ts:32-62 | answers with the token and id, stores the new session, and leaves payments and users alone; under a new id no existing session's payment fields change |
| Routes.GetSession | server/routes.ts:65-78 | an unknown token answers 404; otherwise the answer is the first session with that token |
| Routes.ForwardedPatch | server/routes.ts:84-95 | the store receives exactly `cvData`, `currentStep` and `currentSubStep`, each possibly undefined, and never the payment fields |
| Routes.PutBlanksMissingKeys | server/routes.ts:91-95 | after a PUT the three fields equal the body's values (undefined when missing), and the payment fields are kept |
| Routes.PutSession | server/routes.ts:81-101 | an unknown token answers 404 and changes nothing; otherwise only the found session is replaced, by the merge of the forwarded patch; no session's `isPaid` or intent id changes |
| Routes.UploadJson | server/routes.ts:104-120 | no file answers 400; the answer is 200 iff the text parses and the document validates, and then it carries the validated document; otherwise 400 |
| Routes.UploadJsonRoundTrip | server/routes.ts:110-116 | a serialised document is accepted iff it is valid, and then it is returned unchanged |
| Routes.UploadPdf | server/routes.ts:123-143 | no file or a failed magic-byte check answers 400; the answer is 200 iff the file passes and the AI extraction succeeds, and then it carries the AI output |
| Routes.UploadPdfGuardsFirst | server/routes.ts:125-131 | when a guard rejects, the AI's answer makes no difference and the status is 400 |
| Routes.UploadPdfDoesNotValidate | server/routes.ts:137-139 | AI output that the schema rejects (`null`) is still returned with 200 |
| Routes.EnhanceDescription | server/routes.ts:146-160 | a falsy description, job title or company answers 400; otherwise 200 with the AI text iff the AI call succeeds, else 500 |
| Routes.EnhanceGuardFirst | server/routes.ts:150-152 | when the guard rejects, the AI's answer makes no difference |
| Routes.PaymentRecordShape | server/routes.ts:200-206 | the payment record has the session id, amount `"9.99"`, currency `"usd"`, and the provider's intent id and status |
| Routes.CreatePaymentIntent | server/routes.ts:176-212 | unknown token: 404; already paid: 400; in both cases no charge is requested and no payment is stored. Otherwise a 999-cent `usd` charge is requested and exactly one payment is stored when the provider succeeds, its id appended to the iteration order when new; sessions are never changed |
| Routes.VerifyPayment | server/routes.ts:215-243 | a status other than `"succeeded"` answers 400 before any lookup and changes nothing; an unknown token answers 404; otherwise the session is marked paid with that intent id; payments are never changed, and no session's `isPaid` changes except to `true` |
| Routes.GeneratePdf | server/routes.ts:246-269 | an unknown token answers 404, an unpaid session 403, and a paid one 200 with `downloadUrl` `/api/download-pdf/` + token |
| Routes.EditNewSession | server/routes.ts:84-95 | a new session edited with a PUT answers 200 and stays unpaid, and `generate-pdf` then answers 403 |
| Routes.PayAndVerifyTwice | server/routes.ts:176-269 | paying and verifying twice leaves `isPaid` true; the intent answers 200 with the client secret; the second verification answers as the first did; a new intent is refused with 400 and `generate-pdf` answers 200 with the download URL |
| Grouping.Keys | client/src/components/cv-builder/cv-preview.tsx:14-20 | every element's key is listed, and every listed key belongs to some element |
| Grouping.Members | client/src/components/cv-builder/cv-preview.tsx:14-20 | a group is no longer than the list |
| Grouping.GroupBy | client/src/components/cv-builder/cv-preview.tsx:14-20 | the loop's accumulator has exactly the keys `Keys` lists, and each key's array is exactly `Members` for that key |
| Grouping.KeysDistinct | client/src/components/cv-builder/cv-preview.tsx:15-17 | each key is listed once |
| Grouping.KeysOfPrefix | client/src/components/cv-builder/cv-preview.tsx:14-20 | the keys of a prefix are a prefix of the keys: groups appear in first-appearance order |
| Grouping.KeysEmptyIff | client/src/components/cv-builder/cv-preview.tsx:132 | there is a group iff there is an element |
| Grouping.MembersHaveKey | client/src/components/cv-builder/cv-preview.tsx:18 | every member of a group has that group's key |
| Grouping.MembersContainElement | client/src/components/cv-builder/cv-preview.tsx:18 | every element is in the group of its key |
| Grouping.MembersAreElements | client/src/components/cv-builder/cv-preview.tsx:18 | every member of a group is an element of the list |
| Grouping.MembersAppend | client/src/components/cv-builder/cv-preview.tsx:18 | grouping a concatenation concatenates the groups: within a group the list order is kept |
| Grouping.MembersOfUnusedKey | client/src/components/cv-builder/cv-preview.tsx:15-17 | a key no element has has an empty group |
| Grouping.GroupsPartition | client/src/components/cv-builder/cv-preview.tsx:14-20 | the group sizes add up to the length of the list, so each element is in exactly one group |
| CvPreview.ShownDescription | client/src/components/cv-builder/cv-preview.tsx:92-95 | the first 150 characters plus `...` iff the preview is watermarked and the text is longer than 150; otherwise the text verbatim |
| CvPreview.ShownDescriptionIdempotent | client/src/components/cv-builder/cv-preview.tsx:92-95 | shortening an already shown description changes nothing |
| CvPreview.EndLabel | client/src/components/cv-builder/cv-preview.tsx:87 | `Present` when the entry is current or has an empty or missing end date; otherwise the end date |
| CvPreview.SameDateRule | client/src/components/cv-builder/cv-preview.tsx:122 | experience and education entries with the same dates get the same label |
| CvPreview.OrFallback | client/src/components/cv-builder/cv-preview.tsx:48-51 | an empty heading falls back to the placeholder; a non-empty one is shown |
| CvPreview.Names | client/src/components/cv-builder/cv-preview.tsx:148 | the badges of a group list its skills' names in order |
| CvPreview.SkillGroups | client/src/components/cv-builder/cv-preview.tsx:138-153 | one group per category, in first-appearance order; group i is headed by the i-th category and lists the names of exactly that category's skills, in list order |
| CvPreview.ShownIfTruthy | client/src/components/cv-builder/cv-preview.tsx:119 | an optional line shows iff its value is a non-empty string, and then shows that value |
| CvPreview.Render | client/src/components/cv-builder/cv-preview.tsx:47-164 | headings are never empty; summary, experience, education and skills sections show iff non-empty; the empty state shows iff the name and all three lists are empty; an education entry's GPA line shows iff its `gpa` is non-empty; the skills section is the category groups |
| CvPreview.SkillsByCategory | client/src/components/cv-builder/cv-preview.tsx:14-20 | the grouping loop gives each category once, with exactly its skills in list order, and some group iff there is a skill |
| CvPreview.SkillGroupsPartition | client/src/components/cv-builder/cv-preview.tsx:14-20 | each skill is in its category's group, each listed skill has that category, and the group sizes add up to the skill count |
| CvPreview.EmptyStateExclusive | client/src/components/cv-builder/cv-preview.tsx:159 | the empty state never shows beside an entry section, and it comes with the name placeholder |
| CvPreview.EmptyDocumentPreview | client/src/components/cv-builder/cv-preview.tsx:47-164 | a new session's document shows the placeholders, no section, and the empty state |
| CvPreview.PaidPreviewVerbatim | client/src/components/cv-builder/cv-preview.tsx:90-95 | an unwatermarked preview shows descriptions verbatim; a watermarked one also does for those of at most 150 characters |
| FieldArray.RemoveAt | client/src/components/cv-builder/skills-form.tsx:181 | removes exactly the element at the index and keeps the other elements in order; an index outside the list changes nothing |
| FieldArray.RemoveAtShifts | client/src/components/cv-builder/skills-form.tsx:181 | after removal, the element at j was at j before the removed index and at j + 1 after it |
| FieldArray.SetAt | client/src/components/cv-builder/experience-form.tsx:81 | only the entry at the index changes |
| FieldArray.RemoveAppended | client/src/components/cv-builder/experience-form.tsx:110 | appending and then removing the new last entry gives the list back |
| SkillsForm.LevelValues | client/src/components/cv-builder/skills-form.tsx:117-121 | the select offers the options' values in order |
| SkillsForm.LevelChoicesAreSchemaLevels | client/src/components/cv-builder/skills-form.tsx:22-27 | the level choices are exactly the four schema levels, in order |
| SkillsForm.AddDisabledIffRejected | client/src/components/cv-builder/skills-form.tsx:143 | the Add button is disabled exactly when `handleAddSkill` would reject the draft |
| SkillsForm.Tag | client/src/components/cv-builder/skills-form.tsx:81 | each entry is tagged with its original index |
| SkillsForm.MembersIncreasing | client/src/components/cv-builder/skills-form.tsx:76-83 | within every group the tagged indices increase |
| SkillsForm.RemoveTaggedEntry | client/src/components/cv-builder/skills-form.tsx:181 | a grouped entry's tag points at that very skill, and removing by it deletes exactly that position |
| SkillsForm.SkillsEditor.constructor | client/src/components/cv-builder/skills-form.tsx:43-48 | the list starts as the data given, with no default entry, and the draft empty |
| SkillsForm.SkillsEditor.TypeName | client/src/components/cv-builder/skills-form.tsx:106 | only the draft's name changes |
| SkillsForm.SkillsEditor.ChooseLevel | client/src/components/cv-builder/skills-form.tsx:112 | only the draft's level changes, to one of the offered values |
| SkillsForm.SkillsEditor.ChooseCategory | client/src/components/cv-builder/skills-form.tsx:127 | only the draft's category changes, to one of the offered categories |
| SkillsForm.SkillsEditor.AddSkill | client/src/components/cv-builder/skills-form.tsx:65-74 | a complete draft is appended exactly and the draft is reset; an incomplete one changes neither the list nor the draft |
| SkillsForm.SkillsEditor.Remove | client/src/components/cv-builder/skills-form.tsx:181 | deletes the entry at the index and forwards the new list |
| SkillsForm.SkillsEditor.Grouped | client/src/components/cv-builder/skills-form.tsx:76-83 | each field is in its category's group exactly once, tagged with its index; indices increase within a group; categories are in first-appearance order |
| ExperienceForm.DefaultExperience | client/src/components/cv-builder/experience-form.tsx:38-47 | all strings are empty, the end date is `""` and `isCurrent` is false |
| ExperienceForm.InitialExperiences | client/src/components/cv-builder/experience-form.tsx:30 | the data when it is non-empty, otherwise one default entry; never empty |
| ExperienceForm.DefaultExperienceInvalid | client/src/components/cv-builder/experience-form.tsx:38-47 | the default entry does not satisfy the schema |
| ExperienceForm.ClientGuardMatchesServer | client/src/components/cv-builder/experience-form.tsx:62 | the client sends a request exactly when the server's guard would accept it |
| ExperienceForm.ExperienceEditor.constructor | client/src/components/cv-builder/experience-form.tsx:28-31 | the list is the initial list, nothing is enhancing, nothing has been sent |
| ExperienceForm.ExperienceEditor.Append | client/src/components/cv-builder/experience-form.tsx:110 | adds a default entry at the end |
| ExperienceForm.ExperienceEditor.Remove | client/src/components/cv-builder/experience-form.tsx:126-130 | offered only with more than one entry; deletes that entry, and the list never becomes empty |
| ExperienceForm.ExperienceEditor.Edit | client/src/components/cv-builder/experience-form.tsx:49-57 | only the edited entry changes, and the whole list is forwarded |
| ExperienceForm.ExperienceEditor.StartEnhance | client/src/components/cv-builder/experience-form.tsx:59-78 | an entry missing its job title, company or description sends nothing and changes nothing; otherwise it sends exactly that entry's three fields, which the server guard accepts, and marks it as enhancing |
| ExperienceForm.ExperienceEditor.FinishEnhance | client/src/components/cv-builder/experience-form.tsx:80-95 | on success only that entry's description becomes the answer; on failure the list is kept; either way nothing is enhancing afterwards |
| ExperienceForm.DefaultEntryFlow | client/src/components/cv-builder/experience-form.tsx:110-130 | the single default entry can be neither enhanced nor removed; after an append, removing the new entry restores the list |
| EducationForm.DefaultEducation | client/src/components/cv-builder/education-form.tsx:32-42 | all strings, including `gpa` and the end date, are empty, and `isCurrent` is false |
| EducationForm.InitialEducation | client/src/components/cv-builder/education-form.tsx:24 | the data when it is non-empty, otherwise one default entry; never empty |
| EducationForm.DefaultEducationInvalid | client/src/components/cv-builder/education-form.tsx:32-42 | the default entry does not satisfy the schema |
| EducationForm.EducationEditor.constructor | client/src/components/cv-builder/education-form.tsx:22-25 | the list is the initial list and nothing has been forwarded |
| EducationForm.EducationEditor.WatchFires | client/src/components/cv-builder/education-form.tsx:45-52 | the whole list is forwarded, only when the watched value holds one |
| EducationForm.EducationEditor.Append | client/src/components/cv-builder/education-form.tsx:66 | adds a default entry at the end and forwards the list |
| EducationForm.EducationEditor.Remove | client/src/components/cv-builder/education-form.tsx:82-86 | offered only with more than one entry; deletes that entry, and the list never becomes empty |
| EducationForm.EducationEditor.Edit | client/src/components/cv-builder/education-form.tsx:45-52 | only the edited entry changes, and the whole list is forwarded |
| ProgressSteps.StatusOf | client/src/components/cv-builder/progress-steps.tsx:28-30 | exactly one status: completed iff i < c, active iff i = c, pending iff i > c |
| ProgressSteps.BadgeOf | client/src/components/cv-builder/progress-steps.tsx:34-38 | a check mark iff completed, otherwise the number i + 1 |
| ProgressSteps.Indicator | client/src/components/cv-builder/progress-steps.tsx:21-56 | one entry per id, in order; check mark iff completed; label highlighted iff not pending; a connector after every entry but the last, coloured iff completed |
| ProgressSteps.ProgressBar | client/src/components/cv-builder/progress-steps.tsx:3-7 | the bar lists the wizard's steps in the wizard's order |
| ProgressSteps.StatusesOrdered | client/src/components/cv-builder/progress-steps.tsx:28-30 | completed entries come first, then at most one active entry, then pending ones |
| ProgressSteps.ActiveIsCurrent | client/src/components/cv-builder/progress-steps.tsx:15 | for a known id, exactly the entry with that id is active |
| ProgressSteps.UnknownIdAllPending | client/src/components/cv-builder/progress-steps.tsx:15 | an id not in the list makes every entry pending, unhighlighted and numbered |
| ProgressSteps.StoredStepAllPending | client/src/components/cv-builder/progress-steps.tsx:15 | the stored step `"personal-info"` shows every step pending |
| ProgressSteps.LastStepCompletesOthers | client/src/components/cv-builder/progress-steps.tsx:28-38 | on `preview-customize` the first two steps are checked off and the third is active with number 3 |
| SubSteps.SubStepBar | client/src/components/cv-builder/sub-steps.tsx:3-8 | the bar lists the wizard's sub-steps in the wizard's order |
| SubSteps.FilledUpToCurrent | client/src/components/cv-builder/sub-steps.tsx:31-39 | a badge is filled iff its index is at most the current one, and exactly the filled ones have highlighted labels |
| SubSteps.SkillsChecksEarlier | client/src/components/cv-builder/sub-steps.tsx:35 | on skills the three earlier sub-steps are checked off, and skills is active with no connector |
| SubSteps.CurrentSubStepActive | client/src/components/cv-builder/sub-steps.tsx:16 | for a known sub-step, exactly its entry is active |
| BuilderPage.CurrentForm | client/src/pages/cv-builder.tsx:41-57 | a form shows iff the step is `fill-form`; experience, education and skills each show their list; any other sub-step shows the personal-info form |
| BuilderPage.RenderPage | client/src/pages/cv-builder.tsx:33-133 | a spinner iff no session; the sub-step bar iff `fill-form`; the import panel iff `(fill-form, personal-info)` with an empty name; watermark and premium panel iff unpaid; the processing card iff processing |
| BuilderPage.ImportPanelBesidePersonalInfo | client/src/pages/cv-builder.tsx:98-102 | the import panel only ever shows beside the personal-info form |
| BuilderPage.UnknownSubStepFallsBack | client/src/pages/cv-builder.tsx:52-53 | an unrecognised sub-step inside `fill-form` shows the personal-info form |
| BuilderPage.ReloadedNewSessionShowsNoForm | client/src/pages/cv-builder.tsx:42-56 | with the stored step `"personal-info"` the page shows no form, no sub-step bar, and every step pending |
| BuilderPage.WatermarkIffPremium | client/src/pages/cv-builder.tsx:127-129 | the watermark and the premium panel show together |
| BuilderPage.ClickStep | client/src/pages/cv-builder.tsx:89 | a click on a progress entry navigates to that step from anywhere, with no ordering check |
| BuilderPage.ClickSubStep | client/src/pages/cv-builder.tsx:92 | a click on a sub-step entry navigates to it from anywhere, with no gating |
| BuilderPage.ProcessingFlow | client/src/pages/cv-builder.tsx:131 | leaving skills hides the form and shows the processing card; after the timer the card is gone |

## Left out

- The external services are parameters of the handler that uses them: Stripe's
  `paymentIntents.create` and `retrieve`, the AI service behind `extractCvDataFromText`
  and `enhanceJobDescription`, `randomBytes`, and `randomUUID`. Each handler
  receives the answer the call would give. Token uniqueness is probabilistic and
  is not modelled.
- The clock (`new Date()`) is an integer parameter `now`.
- `POST /api/generate-summary` is left out. It only forwards its body to the AI
  service and has no guard or state.
- Authentication, the checkout page, the navbar, the personal-info form (a
  `form.reset` inside the form library), the file-upload panel and the static
  pages are left out. They are network I/O or library internals.
- The 10 MiB upload limit is multer configuration and is left out.
- Each `500` answer from a `catch` around a store call is left out. In the model
  those calls cannot throw after the guards: a found session is always stored
  under its own id.
- Schema.IsEmail: zod's e-mail regular expression is approximated as one `@`,
  with a non-empty local part and a dotted domain.
- Schema.ValidateCvData: zod collects every issue. The model reports the first
  issue in field order, and its messages for missing or mistyped values are
  simplified.
- Schema.Json: JSON numbers are integers. The validator only checks whether a
  value is a number.
- `res.json` drops `undefined` fields in responses. The model keeps them as part
  of the stored record.
- Skill categories are assumed not to look like array indices. JavaScript objects
  enumerate integer-like keys numerically, which would reorder the groups.
- Categories named like `Object.prototype` members (such as `constructor`) are
  not modelled either.
- Strings are sequences of characters. UTF-16 code units, as counted by
  `substring(0, 150)`, are not distinguished.
- Bodies are typed. The enhance body's `description`, `jobTitle` and `company`
  are strings or `undefined`. The session token of GET, PUT,
  `create-payment-intent`, `verify-payment` and `generate-pdf` is a plain string,
  so a missing token is not modelled. No stored session has an undefined token,
  so the source treats one like an unknown token and answers 404. A PUT body
  carries only the three keys the handler reads. Non-string JSON values in these
  keys are not modelled.
- Storage.ApplySessionPatch: the merge covers the five keys callers pass. A
  `Partial<CvSession>` carrying `id`, `sessionToken` or `createdAt` could also
  overwrite those keys, but no caller passes them.
- Storage.MergeUser: a payload carrying `createdAt` or `updatedAt` is not
  modelled.
- Storage.MemStorage.UpsertUser requires a non-empty fresh id, as `randomUUID`
  always yields one.
- Wizard.CvBuilder.LoadSession takes a typed document. The hook casts the stored
  `cvData` without checking it, and that cast is left out.
- The wizard's outbox `sent` is an ordinary field. Sending to the server, React
  Query caching and invalidation, toasts, and the order in which concurrent
  requests complete are left out.
- ExperienceForm.ExperienceEditor.FinishEnhance requires the entry to still
  exist. A form-library `setValue` on an index removed while the request ran is
  not modelled.
- The form library's internal field ids and its watch subscriptions in the
  experience and skills forms are modelled as forwarding the list after each
  change.
