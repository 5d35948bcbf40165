# Portfolio document editing, modelled in Dafny

The portfolio site keeps its whole content in one untyped JavaScript document,
`window.portfolioData`. It holds the name, title, contacts, about paragraphs, education and
certification entries, skills, social links, projects and logo. Every editor on the page
changes that one document in place:

- the inline field and image editors write a value at a dotted path such as
  `projects[2].title`, creating the containers on the way;
- the section editors (education, skills, social links, projects) each keep a list, edit it
  by append, remove-at-index and update-at-index, and mirror every new list into the document.
  On mount they adopt the document's list, or seed the document with their own defaults;
- the edit-mode provider snapshots the document when editing starts, restores it on Cancel,
  and on Save writes it to `localStorage` before pushing it to the repository;
- the logo and social-icon editors keep draft fields, committed on Save and reset on Cancel;
- the CV generator lays the document out on one PDF page with a vertical cursor, and names
  the file after the user.

The model has these parts:

- **Json document.** The document is a `Json` value: strings, integer numbers, booleans,
  `null`, objects, and arrays whose elements may be holes. JavaScript truthiness,
  own-property reads, `x[k] = v`, `arr[i] = v` (which grows the array and leaves holes), the
  spread `{...x}`, and the deep copy `JSON.parse(JSON.stringify(x))` are written out as
  functions.
- **Browser globals.** `window` is a class with two fields: the document and `localStorage`.
  Each editor is a class that holds the fields its React state holds and updates them in
  `modifies`-framed methods.
- **Path writer.** The walk is an imperative loop over the path's segments, the same loop the
  editors run. It is proved against a pure specification, `SetAtPath`, and the path-writer
  lemmas are proved about that specification.
- **CV.** The CV is a list of `(text, x, y)` draw commands. Each section's loop is a method
  proved equal to a layout function, and the lemmas about those functions give each line's
  position and show that the cursor never moves up.

Inputs the code gets from outside are parameters:

- the remote save's outcome is a boolean;
- whether `localStorage.setItem` throws (as on a full quota) is a boolean;
- a file read is its data URL;
- jsPDF's `splitTextToSize` is a function from the text to a line count;
- the text in a `localStorage` slot is what `JSON.parse` makes of it, or nothing when it
  does not parse.

## Model

| member | source | states |
|---|---|---|
| Text.CountPositive | components/editable-logo.tsx:121-122 | a character is counted a positive number of times exactly when it occurs in the text |
| Text.Split | components/projects-section.tsx:130 | `split` on one character yields one piece more than there are separators, and no piece holds the separator |
| Text.SplitThenJoin | components/editable-logo.tsx:121-122 | joining the pieces of a split with the same separator gives back the original text |
| Text.JoinThenSplit | components/projects-section.tsx:130 | splitting a join of separator-free pieces gives back exactly those pieces |
| Text.SplitAround | components/editable-field.tsx:44 | a text with one separator splits into the two pieces around it |
| Text.TrimStart | components/projects-section.tsx:130 | the result is a suffix of the input; every character cut off is white space; the result does not start with white space; it is shorter whenever the input started with white space |
| Text.TrimEnd | components/projects-section.tsx:130 | the result is a prefix of the input; every character cut off is white space; the result does not end with white space |
| Text.Trim | components/projects-section.tsx:130 | `trim` cuts only white space off the two ends of the input (input = white space + result + white space). The result has no white space at either end, and a text that has none is left unchanged |
| Text.TrimSkipsLeadingSpace | components/projects-section.tsx:130 | a leading space makes no difference to `trim` |
| Text.CollapseWhitespaceRemovesAll | lib/generate-cv.ts:117 | replacing each white-space run with a white-space-free text leaves no white space, and with a one-character replacement the text never grows |
| Text.CollapseWhitespaceIdentity | lib/generate-cv.ts:117 | a text without white space is left unchanged by the replacement |
| Text.CollapseWords | lib/generate-cv.ts:117 | non-empty words separated by non-empty white-space runs of any length come out as the words joined by one copy of the replacement, whatever text follows |
| Text.CollapseSpelled | lib/generate-cv.ts:117 | with white space also before and after the words, each outer run becomes exactly one replacement as well, and no run gives nothing |
| Text.IndexOf | components/editable-field.tsx:52-53 | `indexOf` finds the first occurrence: the character is at that position and not before it |
| Text.IndexOfAfter | components/editable-field.tsx:52-53 | in `a + c + b` with no `c` in `a`, `indexOf(c)` is the length of `a` |
| Text.NatToString | components/editable-field.tsx:59-60 | the decimal spelling of an index is a non-empty run of digits |
| Text.ParseNatToString | components/editable-field.tsx:53 | `parseInt` of a number's decimal spelling gives the number back |
| Text.NatToStringInjective | components/editable-field.tsx:59-60 | distinct indices have distinct property-key spellings |
| Json.OrEmpty | hooks/use-edit-mode.tsx:45 | a falsy value replaced by `{}` gives a value that is always truthy |
| Json.SetKey | components/editable-field.tsx:72 | `x[k] = v` succeeds exactly on objects; then `k` reads `v`, every other key reads what it did and the key set gains `k`; a primitive target is a TypeError |
| Json.StoreAt | components/editable-field.tsx:59-60 | `arr[i] = v` leaves length `max(len, i + 1)`; element `i` is `v`; earlier elements are unchanged; new positions before `i` are holes |
| Json.StoreAtTwice | components/editable-skill.tsx:38-45 | of two stores at the same index the second wins, so the intermediate `{}` is invisible |
| Json.PutElement | components/projects-section.tsx:125 | `c[i] = v` succeeds exactly on arrays and objects; element `i` then reads `v`, every other element reads what it did, and an array stays an array |
| Json.IndexKeyed | components/education-section.tsx:108 | the index-keyed properties of an array read back each element, and there are no other keys |
| Json.Spread | components/education-section.tsx:108 | `{...x}` copies an object's fields, a string's characters and an array's elements under their index keys, and nothing for other values |
| Json.NormalizeHasNoHoles | hooks/use-edit-mode.tsx:37 | the deep copy contains no holes |
| Json.NormalizeFixesHoleFree | hooks/use-edit-mode.tsx:37 | a document without holes survives the deep copy unchanged |
| Json.NormalizeIdempotent | hooks/use-edit-mode.tsx:37 | deep-copying a deep copy changes nothing |
| Json.ElementTexts | lib/generate-cv.ts:109 | `join` takes one text per element |
| Json.Present | lib/generate-cv.ts:56 | `forEach` visits no more values than the array has positions |
| Json.PresentFrom | lib/generate-cv.ts:56 | every value `forEach` visits is an element of the array |
| Json.PresentAll | lib/generate-cv.ts:56 | every present element of the array is visited: `forEach` skips only holes |
| Json.PresentDense | lib/generate-cv.ts:56 | on an array without holes `forEach` visits every element exactly once, in order |
| Json.Strings | components/projects-section.tsx:130-131 | the array of trimmed technology strings has one string element per item, in order |
| Document.AfterSet | components/skills-section.tsx:50 | the document after `pd[k] = v`: the updated object on success, unchanged when the assignment throws |
| Document.PutIndexedEffect | components/editable-skill.tsx:34-45 | `if (!pd[key]) pd[key] = []; pd[key][i] = v` fails exactly when the document is not an object or `key` holds a truthy primitive; otherwise element `i` is `v`, other elements are kept (absent when the list was new) and other keys are untouched |
| Document.Window.constructor | components/editable-field.tsx:39 | the page starts with no document and an empty storage |
| Document.Window.EnsureDocument | components/editable-field.tsx:39-41 | an absent or falsy document becomes `{}`; a truthy one is kept |
| Document.Window.AssignKey | components/skills-section.tsx:50 | `portfolioData[key] = value` succeeds exactly when the document is an object, and the document becomes `AfterSet` of the old one |
| Document.SeedSynchronises | components/education-section.tsx:66-76 | after a completed mount effect the document holds exactly the section's list under its key, and no other key has changed |
| Document.AdoptOrSeed | components/skills-section.tsx:28-38 | the mount effect creates the document, adopts the array under the key when it is truthy, and otherwise stores the section's list there |
| Document.StoreIndexed | components/editable-skill.tsx:29-46 | the document and its list are created when missing, then element `index` is assigned; on failure the document is only created |
| Lists.Without | components/skills-section.tsx:55 | `filter((_, i) => i !== index)` on a list without holes drops exactly the entry at `index` and keeps the order; an index outside the list changes nothing |
| Lists.Append | components/skills-section.tsx:48 | `[...xs, x]` keeps every old entry in place and adds `x` at the end |
| Lists.WithoutKeepsOne | components/social-icons.tsx:67 | removing from a list of two or more entries never empties it |
| EditMode.Snapshot | hooks/use-edit-mode.tsx:37 | the snapshot is truthy, has no holes, and equals the document whenever the document has none |
| EditMode.SaveReloadStable | hooks/use-edit-mode.tsx:22-48 | after a save, the next mount loads the saved copy, and saving that again stores the same copy |
| EditMode.Provider.constructor | hooks/use-edit-mode.tsx:17-18 | the provider starts outside edit mode with no snapshot |
| EditMode.Provider.Mount | hooks/use-edit-mode.tsx:22-32 | saved data that parses replaces the document; otherwise the document is unchanged |
| EditMode.Provider.Toggle | hooks/use-edit-mode.tsx:34-40 | the flag always flips; entering edit mode stores a deep copy of the document (or `{}`); leaving restores nothing |
| EditMode.Provider.Save | hooks/use-edit-mode.tsx:42-74 | when `setItem` throws, storage is unchanged and nothing is pushed; otherwise the serialised document is written to storage and the document is pushed. The document is never changed. Edit mode ends only when both the storage write and the remote save succeed, and failure is reported otherwise |
| EditMode.Provider.Cancel | hooks/use-edit-mode.tsx:76-82 | a snapshot, when there is one, replaces the document; edit mode always ends |
| PathWriter.Steps | components/editable-field.tsx:44-53 | a path has one intermediate step per segment but the last |
| PathWriter.Put | components/editable-field.tsx:55-69 | writing back into a container the walk could pass through always succeeds and yields an object |
| PathWriter.SetPath | components/editable-field.tsx:44-72 | a successful write starts from an object and yields an object |
| PathWriter.ChildReads | components/editable-field.tsx:55-69 | the walk moves to the existing value when it is truthy and to a new `{}` otherwise |
| PathWriter.ReadPut | components/editable-field.tsx:63-68 | after writing back, the step reads the value written |
| PathWriter.PropPutOther | components/editable-field.tsx:55-68 | writing back through a step leaves every other key of the container as it was |
| PathWriter.ReadPutOther | components/editable-field.tsx:55-68 | writing back through a step changes nothing another step reads |
| PathWriter.FollowFromNothing | components/editable-field.tsx:65-68 | nothing is found under a new `{}` or a non-object |
| PathWriter.FollowThroughChild | components/editable-field.tsx:63-68 | reading a path through a step equals reading the rest from where the walk moves |
| PathWriter.ReadAfterWrite | components/editable-field.tsx:44-72 | after a successful write, following the same steps reaches exactly the written value |
| PathWriter.GetAfterSet | components/editable-field.tsx:44-72 | after a successful write, reading the same path string gives exactly the written value |
| PathWriter.WriteIntoEmpty | components/editable-field.tsx:55-69 | a write into `{}` always succeeds and creates one object per key step, and for `name[i]` an array with holes before `i` |
| PathWriter.WriteKeyLeavesOthers | components/editable-field.tsx:72 | assigning the last key changes nothing read by a path that starts at another key |
| PathWriter.WriteStepLeavesOthers | components/editable-field.tsx:47-72 | a write through a first step changes nothing read by a path that parts from it at the root |
| PathWriter.WriteLeavesOthers | components/editable-field.tsx:47-72 | a write changes nothing read by any path that diverges from it at some depth: keys and elements off the path are unchanged |
| PathWriter.PutElementTwice | components/editable-field.tsx:59-63 | two stores into the same element: the second wins |
| PathWriter.PutIndexedTwice | components/editable-field.tsx:55-63 | two indexed writes at the same key and index: the second wins |
| PathWriter.PutTwice | components/editable-field.tsx:55-69 | writing back twice through one step: the walk can still pass, and the second write wins |
| PathWriter.LastWriteWins | components/editable-field.tsx:44-72 | of two writes at the same path the second determines the document |
| PathWriter.Push | components/editable-field.tsx:47-70 | each loop step keeps the invariant that the rebuilt outer containers around the rest of the walk give the whole write |
| PathWriter.Pop | components/editable-field.tsx:47-70 | rebuilding the innermost container first leaves the outer ones to rebuild |
| PathWriter.Blocked | components/editable-field.tsx:55-66 | a walk whose first step throws writes nothing |
| PathWriter.WriteAtPath | components/editable-field.tsx:39-72 | the in-place loop creates the document if needed and ends in exactly the specified write; a walk that throws leaves the created document alone; storage is untouched |
| PathWriter.BracketPositions | components/editable-field.tsx:52-53 | in `name[digits]` the first `[` follows the name and the first `]` follows the digits |
| PathWriter.IndexSegment | components/editable-field.tsx:51-53 | `name[digits]` is read as element `parseInt(digits)` of `name` |
| PathWriter.SegmentHasNoDot | components/editable-field.tsx:44 | `name[digits]` contains no dot when `name` does not |
| PathWriter.IndexedPathParts | components/editable-field.tsx:44 | `name[digits].key` splits into the segment and the key |
| PathWriter.IndexedThenKey | components/editable-field.tsx:44-53 | `name[digits].key` is one indexed step followed by the last key |
| PathWriter.TwoSegments | components/editable-field.tsx:44-47 | a two-segment path has its first segment as its one step and its second as the last key |
| PathWriter.IndexStepIntoEmptyList | components/editable-field.tsx:55-63 | an indexed step into a missing or empty array gives holes up to the index and a new object holding only the key |
| PathWriter.IndexedPathIntoEmptyList | components/editable-field.tsx:44-72 | the same for the path string `name[digits].key` |
| PathWriter.SkillNameExample | components/editable-field.tsx:44-72 | writing `"Rust"` at `skills[0].name` into `{name: "Ada", skills: []}` gives `{name: "Ada", skills: [{name: "Rust"}]}` |
| PathWriter.ProjectTitleExample | components/editable-field.tsx:55-61 | writing at `projects[2].title` into `{}` leaves holes at positions 0 and 1 and the new object at 2 |
| PathWriter.SingleSegment | components/editable-field.tsx:72 | a path without a dot is assigned as one key, brackets and all |
| PathWriter.AboutExample | components/about-section.tsx:23 | the about editor's path `about[0]` writes a root key literally named `about[0]` |
| EditableField.Field.constructor | components/editable-field.tsx:26 | the local text starts as the `value` prop |
| EditableField.Field.OnValueChange | components/editable-field.tsx:29-31 | a new `value` prop replaces the local text |
| EditableField.Field.HandleChange | components/editable-field.tsx:34-73 | the local text becomes the new value, which is written at the path; after a successful write the path reads back exactly that value |
| EditableImage.Image.constructor | components/editable-image.tsx:19-20 | the image starts as the `src` prop and not dragging |
| EditableImage.Image.OnSrcChange | components/editable-image.tsx:24-26 | a new `src` prop resets the displayed source |
| EditableImage.Image.OnLoad | components/editable-image.tsx:39-78 | the data URL is displayed and written at the path with the field writer's semantics; after success the path reads back the displayed string |
| EditableImage.Image.HandleFileChange | components/editable-image.tsx:29-34 | only the first selected file is loaded, and nothing happens without one |
| EditableImage.Image.DragEnter | components/editable-image.tsx:83-87 | the dragging flag is set only in edit mode |
| EditableImage.Image.DragLeave | components/editable-image.tsx:89-93 | the dragging flag is cleared only in edit mode |
| EditableImage.Image.Drop | components/editable-image.tsx:100-109 | only in edit mode: the flag is cleared and only the first dropped file is loaded; outside edit mode nothing changes |
| EditableLogo.LogoObject | components/editable-logo.tsx:43-47 | `{type, text, image}` reads back each draft and has no other key |
| EditableLogo.LogoWords | components/editable-logo.tsx:121-122 | the highlighted first word has no space, and a rest is shown exactly when the text has a space |
| EditableLogo.LogoWordsReassemble | components/editable-logo.tsx:142-143 | first word, one space and the rest give back the text; without a space the first word is the text |
| EditableLogo.Logo.constructor | components/editable-logo.tsx:17-20 | the type is "image" exactly when a default image is given; text and image start as the defaults |
| EditableLogo.Logo.Init | components/editable-logo.tsx:23-39 | with a logo in the document only its truthy fields replace the drafts; without one the drafts are written as the logo |
| EditableLogo.Logo.StartEditing | components/editable-logo.tsx:118 | clicking the logo starts editing and keeps the drafts |
| EditableLogo.Logo.ChooseType | components/editable-logo.tsx:73-88 | the Text and Image buttons set the draft type and nothing else |
| EditableLogo.Logo.TypeText | components/editable-logo.tsx:92 | the text input sets the draft text and nothing else |
| EditableLogo.Logo.Save | components/editable-logo.tsx:42-49 | all three drafts become the document's logo and editing ends; a non-object document throws and editing goes on |
| EditableLogo.Logo.Cancel | components/editable-logo.tsx:52-59 | with a logo the drafts are read back from it; editing always ends unless reading the logo throws |
| EditableLogo.Logo.UpdateLogoImage | components/editable-logo.tsx:62-67 | the draft image is always set; the document's logo image is set only when a logo exists, and its other fields are kept |
| EditableLogo.SaveThenCancel | components/editable-logo.tsx:42-59 | saving then cancelling leaves the drafts as they were and ends editing |
| EditableSkill.Skill.constructor | components/editable-skill.tsx:19-20 | the local name and level start as the props |
| EditableSkill.Skill.OnProps | components/editable-skill.tsx:23-26 | new name or level props reset the local state |
| EditableSkill.Skill.UpdateGlobalData | components/editable-skill.tsx:29-46 | document and `skills` are created if needed; `skills[index]` becomes exactly `{name, level}`; other positions and other keys are unchanged |
| EditableSkill.Skill.HandleNameChange | components/editable-skill.tsx:49-53 | the new name is stored with the current level |
| EditableSkill.Skill.HandleLevelChange | components/editable-skill.tsx:56-60 | the first value becomes the level, unclamped, stored with the current name |
| EditableSocialIcon.LowerChar | components/editable-social-icon.tsx:66 | upper-case ASCII letters are lowered by 32 and characters whose lower case is no ASCII letter are kept |
| EditableSocialIcon.Lower | components/editable-social-icon.tsx:66 | lower-casing works character by character and keeps the length |
| EditableSocialIcon.IconNamed | components/editable-social-icon.tsx:66-85 | a brand icon is chosen exactly for its own name, and the globe for any text that names no brand |
| EditableSocialIcon.LowerIdempotent | components/editable-social-icon.tsx:66 | lower-casing twice is lower-casing once |
| EditableSocialIcon.IconCaseInsensitive | components/editable-social-icon.tsx:66 | two types that lower-case alike show the same icon |
| EditableSocialIcon.IconChoice | components/editable-social-icon.tsx:65-86 | a type shows a brand icon exactly when it lower-cases to that brand's name, and the globe exactly when it lower-cases to no brand's name |
| EditableSocialIcon.SocialIcon.constructor | components/editable-social-icon.tsx:41-43 | the drafts start as the props, not editing |
| EditableSocialIcon.SocialIcon.Shown | components/editable-social-icon.tsx:88-172 | the edit form shows exactly in edit mode while editing and not read-only; the plain link exactly outside edit mode or when read-only |
| EditableSocialIcon.SocialIcon.OnProps | components/editable-social-icon.tsx:46-49 | new type or URL props reset the drafts |
| EditableSocialIcon.SocialIcon.StartEditing | components/editable-social-icon.tsx:163 | the edit button starts editing and keeps the drafts |
| EditableSocialIcon.SocialIcon.ChoosePlatform | components/editable-social-icon.tsx:100-111 | a dropdown item sets the draft type to the lower-cased platform name |
| EditableSocialIcon.SocialIcon.TypeUrl | components/editable-social-icon.tsx:123 | the URL input sets the draft URL and nothing else |
| EditableSocialIcon.SocialIcon.Save | components/editable-social-icon.tsx:52-55 | the drafts go to the bar as entry `index` of its list, and editing ends only when storing the list into the document does not throw (a document that is not an object throws, and editing goes on) |
| EditableSocialIcon.SocialIcon.Cancel | components/editable-social-icon.tsx:58-62 | the drafts are reset to the props and editing ends |
| EditableSocialIcon.SocialIcon.Remove | components/editable-social-icon.tsx:88-138 | removal happens only from the edit form (edit mode, editing, not read-only) and only while the bar offers it; it drops exactly this entry and never empties a list without holes |
| EditableSocialIcon.PlatformIcons | components/editable-social-icon.tsx:100-113 | each of the nine dropdown platforms, once chosen, shows its own icon; "Website" shows the globe |
| EditableSocialIcon.NamedIcon | components/editable-social-icon.tsx:66-82 | each brand's name selects that brand |
| EditableSocialIcon.PlatformNames | components/editable-social-icon.tsx:100-111 | each platform lower-cases to its brand's name |
| EditableSocialIcon.PlatformIcon | components/editable-social-icon.tsx:100-110 | only the last dropdown entry stands for the globe |
| EducationSection.Updated | components/education-section.tsx:107-108 | entry `index` gets `value` under `field`; its other fields are kept; other entries and the length are unchanged (a missing entry is created) |
| EducationSection.View | components/education-section.tsx:114-115 | a tab shows one entry per position of that type |
| EducationSection.Positions | components/education-section.tsx:143 | a tab's positions are in increasing order and are exactly the positions of entries of that type |
| EducationSection.ViewAtPositions | components/education-section.tsx:143 | the `j`-th card of a tab is the entry at the `j`-th position, where `indexOf` finds it among distinct entries |
| EducationSection.UpdateKeepsTabs | components/education-section.tsx:102-115 | changing a field other than `type` keeps both tabs' positions |
| EducationSection.SamePositions | components/education-section.tsx:114-115 | lists that agree on entry types have the same tab positions |
| EducationSection.Section.constructor | components/education-section.tsx:27-63 | the section starts with its five sample entries |
| EducationSection.Section.Init | components/education-section.tsx:66-76 | mount adopts the document's list or seeds it with the section's, and then the two agree |
| EducationSection.Section.Store | components/education-section.tsx:110 | the section's list is stored under `education`, and the document then mirrors it |
| EducationSection.Section.Add | components/education-section.tsx:79-92 | one placeholder entry of the requested type is appended and stored |
| EducationSection.Section.Remove | components/education-section.tsx:95-99 | exactly the entry at `index` is dropped and the list stored |
| EducationSection.Section.Update | components/education-section.tsx:102-111 | only field `field` of entry `index` changes, and the list is stored |
| EducationSection.Section.UpdateInTab | components/education-section.tsx:140-165 | an edit on a tab's `j`-th card updates that entry's position in the full list |
| EducationSection.Section.RemoveInTab | components/education-section.tsx:172 | the delete button on a tab's `j`-th card removes that entry from the full list |
| SkillsSection.Section.constructor | components/skills-section.tsx:16-25 | the section starts with its six sample skills, not animated |
| SkillsSection.Section.Init | components/skills-section.tsx:28-38 | mount adopts the document's skills or seeds them, and then the two agree |
| SkillsSection.Section.OnInView | components/skills-section.tsx:40-44 | `animated` latches on the first time the section is in view and is never cleared |
| SkillsSection.Section.Store | components/skills-section.tsx:50 | the list is stored under `skills`, and the document then mirrors it |
| SkillsSection.Section.Add | components/skills-section.tsx:47-51 | `{name: "New Skill", level: 50}` is appended and stored |
| SkillsSection.Section.Remove | components/skills-section.tsx:54-58 | exactly the skill at `index` is dropped and the list stored |
| SocialIcons.OfferedRemovalKeepsOne | components/social-icons.tsx:67 | removal through an offered button takes at most one link and never empties a list without holes |
| SocialIcons.Icons.constructor | components/social-icons.tsx:16-21 | the bar starts with its four sample links |
| SocialIcons.Icons.Init | components/social-icons.tsx:24-34 | mount adopts the document's links or seeds them, and then the two agree |
| SocialIcons.Icons.Store | components/social-icons.tsx:41 | the list is stored under `socialLinks`, and the document then mirrors it |
| SocialIcons.Icons.UpdateSocial | components/social-icons.tsx:37-42 | entry `index` becomes `{type, url}`, the others are kept, and the list is stored |
| SocialIcons.Icons.Add | components/social-icons.tsx:45-49 | `{type: "website", url: "https://"}` is appended and stored |
| SocialIcons.Icons.Remove | components/social-icons.tsx:52-56 | exactly the link at `index` is dropped and the list stored |
| ProjectsSection.WithField | components/projects-section.tsx:114 | `{...p, [field]: value}` has `value` under `field` and every other property of `p` |
| ProjectsSection.ParseTechnologies | components/projects-section.tsx:130 | one item per comma-separated piece; item `k` is piece `k` with only white space cut off its two ends; each item is trimmed and comma-free; empty items are kept |
| ProjectsSection.TrimInfix | components/projects-section.tsx:130 | trimming introduces no character the text lacked |
| ProjectsSection.Spaced | components/projects-section.tsx:158 | the pieces of `join(", ")` between commas are one per item |
| ProjectsSection.JoinSpaced | components/projects-section.tsx:158 | `join(", ")` is the join with `,` of the items after the first each preceded by a space |
| ProjectsSection.TechnologiesRoundTrip | components/projects-section.tsx:129-158 | items without commas or surrounding white space, shown joined with `", "` and typed back, are unchanged |
| ProjectsSection.SplitJoined | components/projects-section.tsx:158 | splitting the displayed text at commas gives the spaced pieces |
| ProjectsSection.TrimSpaced | components/projects-section.tsx:130 | trimming a spaced piece gives the item |
| ProjectsSection.EmptyTechnologies | components/projects-section.tsx:130 | an emptied input gives one empty technology, not an empty list |
| ProjectsSection.Section.constructor | components/projects-section.tsx:72 | the section starts with its six sample projects |
| ProjectsSection.Section.Init | components/projects-section.tsx:75-85 | mount adopts the document's projects or seeds them, and then the two agree |
| ProjectsSection.Card.constructor | components/projects-section.tsx:105 | the card's local copy starts as its `project` prop |
| ProjectsSection.Card.OnProps | components/projects-section.tsx:108-110 | a new `project` prop resets the local copy |
| ProjectsSection.Card.UpdateProject | components/projects-section.tsx:113-126 | only `field` of the local copy changes; the copy is written to `projects[index]`, creating the document and array if needed; other keys are untouched |
| ProjectsSection.Card.UpdateTechnologies | components/projects-section.tsx:129-132 | the parsed technologies become the project's `technologies` array and are written back |
| GenerateCv.Skills | lib/generate-cv.ts:88-89 | every present skill is printed, and on a list without holes the printed skills are exactly the list's elements, in order |
| GenerateCv.Projects | lib/generate-cv.ts:104-105 | at most three projects are printed; every present project among the first three is printed, and on a list without holes the printed ones are exactly the first `min(3, length)` elements, in order |
| GenerateCv.EducationRows | lib/generate-cv.ts:58-60 | one row of texts per education entry |
| GenerateCv.CertTexts | lib/generate-cv.ts:71-73 | one bullet line per certification |
| GenerateCv.SkillTexts | lib/generate-cv.ts:89-90 | one `name - level%` line per skill |
| GenerateCv.ProjectRows | lib/generate-cv.ts:105-112 | one row of texts per printed project |
| GenerateCv.EducationLines | lib/generate-cv.ts:56-62 | two commands per education entry |
| GenerateCv.EducationLinesAt | lib/generate-cv.ts:56-62 | entry `k`'s institution is at `y + 15k`, and its dates and qualification 5 below |
| GenerateCv.EducationLinesRise | lib/generate-cv.ts:56-62 | the entries never move up and lie between `y` and `y + 15` per entry |
| GenerateCv.CertLines | lib/generate-cv.ts:71-75 | one command per certification |
| GenerateCv.CertLinesAt | lib/generate-cv.ts:71-75 | certification `k` is at x 25, `y + 6k` |
| GenerateCv.CertLinesRise | lib/generate-cv.ts:71-75 | the certification lines never move up and lie between `y` and `y + 6` per line |
| GenerateCv.CertBlock | lib/generate-cv.ts:66-77 | the block exists only with a certification: a heading plus one line each |
| GenerateCv.CertBlockRise | lib/generate-cv.ts:66-77 | the block never moves up and the cursor advances 8 + 6 per certification + 4, or nothing |
| GenerateCv.SkillLines | lib/generate-cv.ts:89-92 | one command per skill |
| GenerateCv.SkillLinesAt | lib/generate-cv.ts:89-92 | skill `k` is at `y + 5k` |
| GenerateCv.SkillLinesRise | lib/generate-cv.ts:89-92 | the skill lines never move up and lie between `y` and `y + 5` per skill |
| GenerateCv.ProjectLines | lib/generate-cv.ts:105-114 | three commands per printed project |
| GenerateCv.ProjectLinesAt | lib/generate-cv.ts:105-114 | project `k`'s title is at `y + 20k`, its technologies 5 below, its wrapped description 10 below |
| GenerateCv.ProjectLinesRise | lib/generate-cv.ts:105-114 | the project lines never move up and lie between `y` and `y + 20` per project |
| GenerateCv.RisingConcat | lib/generate-cv.ts:44-113 | a block that starts where the previous ends keeps the page rising |
| GenerateCv.UpperBodyRises | lib/generate-cv.ts:44-77 | from the education heading to the skills heading the cursor never moves up |
| GenerateCv.LowerBodyRises | lib/generate-cv.ts:80-114 | from the skills heading to the last project the cursor never moves up |
| GenerateCv.BodyRises | lib/generate-cv.ts:44-114 | everything below the header never moves up |
| GenerateCv.HeaderRises | lib/generate-cv.ts:21-41 | the header lines go down from 20 to 65 |
| GenerateCv.LayoutRises | lib/generate-cv.ts:44-113 | the cursor never decreases through the whole page |
| GenerateCv.UpperBodyEducationAt | lib/generate-cv.ts:48-62 | the education heading is at the cursor, and entry `k` is 10 + 15k below it |
| GenerateCv.UpperBodyCertificationAt | lib/generate-cv.ts:65-77 | the certifications heading follows the entries, and certification `k` is 8 + 6k below it at x 25 |
| GenerateCv.NoCertificationBlock | lib/generate-cv.ts:66 | without certifications nothing is drawn for them and the skills heading follows the entries |
| GenerateCv.LowerBodySkillAt | lib/generate-cv.ts:82-92 | skill `k` is 10 + 5k below the skills heading |
| GenerateCv.LowerBodyProjectAt | lib/generate-cv.ts:95-114 | the projects heading is 5 below the skills' advance, and project `k` is 10 + 20k below it |
| GenerateCv.LayoutStart | lib/generate-cv.ts:39-48 | the page has six header commands then the education heading at 65 + 5 per about line; its length counts every entry, the certification block only when non-empty, and at most three projects |
| GenerateCv.SampleHeader | lib/generate-cv.ts:120-125 | the sample data's name, title, email and location lines |
| GenerateCv.SampleShaped | lib/generate-cv.ts:120-182 | the sample data's shape lets the layout run without throwing |
| GenerateCv.SampleFields | lib/generate-cv.ts:120-182 | the sample data's name and title are strings, and its list fields are the arrays given |
| GenerateCv.EducationShaped | lib/generate-cv.ts:55 | every entry of the education filter has a string institution when every listed entry does |
| GenerateCv.ProjectsShaped | lib/generate-cv.ts:104-105 | the printed projects are well formed when all projects are |
| GenerateCv.HeaderFallbacks | lib/generate-cv.ts:13-30 | missing name, title, email and location print "Your Name", "Frontend Developer", "hello@example.com" and "New York, USA" |
| GenerateCv.FileNameShape | lib/generate-cv.ts:117 | the file name has no white space, ends in `_CV.pdf`, is at most the name plus the suffix, and is exactly name plus suffix when the name has no white space |
| GenerateCv.FileNameWords | lib/generate-cv.ts:117 | a user name made of words with white space around and between them gives the words joined by `_`, one `_` per outer white-space run, then `_CV.pdf` |
| GenerateCv.FileNameTwoWords | lib/generate-cv.ts:117 | a first and a last name with any white-space run between them give `first_last_CV.pdf` |
| GenerateCv.DrawEducation | lib/generate-cv.ts:55-62 | the education loop draws exactly the education lines and advances the cursor 15 per entry |
| GenerateCv.DrawCertifications | lib/generate-cv.ts:65-77 | the certifications block draws exactly the block and advances by its span |
| GenerateCv.DrawSkills | lib/generate-cv.ts:88-92 | the skills loop draws exactly the skill lines and advances 5 per skill |
| GenerateCv.DrawProjects | lib/generate-cv.ts:104-114 | the projects loop draws exactly the project lines and advances 20 per project |
| GenerateCv.DrawPage | lib/generate-cv.ts:13-117 | the page is exactly the layout of the data and the file name comes from the user name |
| GenerateCv.DrawHeader | lib/generate-cv.ts:13-41 | the header commands for the data |
| GenerateCv.DrawBody | lib/generate-cv.ts:44-114 | the sections below the header are exactly the body layout |
| GenerateCv.DrawSkillsAndProjects | lib/generate-cv.ts:80-114 | the skills and projects sections are exactly the lower body layout |
| GenerateCv.Generate | lib/generate-cv.ts:3-118 | the document, or the sample data when there is none, laid out on the page and named after the user |

## Left out

- GenerateCv.Generate: requires the data to be shaped as the layout reads it (`CvShaped`). On other data the source throws or prints `undefined`, and the model does not cover those paths.
- GenerateCv.DrawPage: same precondition as `Generate`.
- GenerateCv.SampleShaped: states the shape of the sample data given the shape of its lists. It is not instantiated for the literal sample lists.
- The positions of lines are proved per part of the page (header, upper body, lower body), not as indices into the whole page.
- jsPDF fonts, sizes, colours and the PDF itself are not modelled. `splitTextToSize` is only a line-count parameter, and a wrapped text is one command.
- Numbers are integers. Floating point and `NaN` are not modelled.
- PathWriter.WriteAtPath: a bracket index that is not a non-empty run of decimal digits between `[` and `]` is excluded by a precondition (`WellFormedPath`). That excludes indices that give `NaN`, and also ones `parseInt` reads as a number: `1x`, ` 2`, `+3`, `0x10` and `-1`. The source writes through all of these, and `-1` sets the named property `"-1"` on the array.
- PathWriter.WriteAtPath: bracket indices are unbounded. An index of 2^32 − 1 or more is an element in the model (the list grows to `i + 1`). In JavaScript it is a named property of the array, and past 2^53 `parseInt` also rounds it.
- Json.Prop: reads an object's own keys only. Keys inherited from `Object.prototype` (`constructor`, `toString`, `__proto__`, ...) read as missing. So PathWriter.WriteAtPath with a path such as `constructor.x` creates an own key `constructor` holding `{x: v}`, and `GetAfterSet` reads it back. JavaScript walks onto the `Object` function and leaves the document unchanged. Likewise, a `__proto__` segment becomes an own key in the model, but in JavaScript it reaches or replaces the prototype. No path built in the source uses such a key.
- PathWriter.WriteAtPath: every step that reads or assigns a named property of an array fails as `Unsupported`. That covers the last assignment and every step walked through an array by a dotted key or a bracket segment's name. JavaScript reads `current["0"]` as the element and assigns named properties of arrays. So a path such as `skills.0.name` fails in the model but writes in the source. No path built in the source walks through an array by key.
- Json.SetKey: `x[k] = v` on an array fails as `Unsupported`, although JavaScript adds the key to the array.
- Document.Window.AssignKey: when the document itself is an array, the assignment fails (`ok` is false) and the document is left unchanged. JavaScript assigns the key on the array.
- `EditableSkill.Skill.HandleLevelChange` requires a non-empty value list. The slider and the number input always pass one value.
- The section lists are copies. The model does not capture the aliasing between a section's own list and the array stored in the document. JavaScript stores the section's own array in the document, or adopts the document's array. So an editor's indexed write such as `pd.skills[index] = {name, level}` also changes the section's list, and a later Add or Remove keeps that edit. In the model, SkillsSection.Section.Add and Remove build the new list from the section's own copy, which the indexed write did not change, so they revert that edit in the document.
- ProjectsSection.Card.UpdateProject: in JavaScript the card's `projectData` is the same object as the document's `projects[index]`. The card starts from the section's prop, and after an update the stored object is the new local copy. So an image written by the card's image editor at `projects[index].image` shows in `projectData`, and the next field edit keeps it. The model's local copy is a value that the image write does not change, so the next field edit writes the old image back and the uploaded image is lost.
- ProjectsSection.Card.UpdateTechnologies: goes through `UpdateProject`, so it loses an uploaded image the same way.
- Document.AdoptOrSeed: when the document holds a truthy value under the key that is not an array, JavaScript adopts it as the section's list, and rendering then throws. The model keeps the section's own list and returns `ok` false.
- Lists.Without and Lists.Append: `None` stands both for a hole and for an explicit `undefined` element. JavaScript's `[...list, x]` turns holes into `undefined` elements, and `filter` keeps those. `Without` drops every `None`, so after an append it also drops elements that JavaScript keeps as `undefined`.
- `indexOf` by object identity is modelled by positions. This is exact when the entries are distinct objects.
- EditableSocialIcon.LowerChar: lower-cases only the characters whose lower case is an ASCII letter (`A`–`Z` and the Kelvin sign). That is enough to decide the icon, but it is not a full `toLowerCase`.
- EditableLogo.LogoObject: a draft that is `undefined` becomes a missing key. Reading it gives `undefined` just the same.
- The remote save (the GitHub push, `savePortfolioToGitHub`) is a boolean input. Toasts are not modelled.
- `localStorage` text is modelled by what `JSON.parse` makes of it. The serialisation text itself is not modelled.
- An indexed write past the end of an array leaves the skipped positions as holes. The model follows the code: they are not filled with `{}`.
- React rendering, effects scheduling, the file reader and drag-over handling are not modelled. Each handler is one method call.
- The share, view, API-service and GitHub-action modules, the navbar, the footer and the floating buttons are not part of this model.
