# Portfolio site data model

A Dafny model of the data core of a single-page portfolio site (`index.tsx`).
The site keeps one JSON-like document. It holds translations, skills, projects,
testimonials, social links, contact details, two images, a visit counter, the
contact-form inquiries and a history of snapshots.

The model covers:

- the page's loading of that document, from the primary key-value store or
  the legacy local store, merged over the built-in defaults;
- its saving;
- the contact form;
- every edit the admin dashboard makes to its working copy;
- the terminal overlay's command handling;
- the AI demo preview's colour scheme and address-bar slug.

Modules, one per part of the program:

- `Options`: the optional value used for keys that may be missing.
- `JsText`: the JavaScript string operations the editors and the terminal use
  (`trim`, `split(',')`, `join`, `toLowerCase`, the `\s` class).
- `Document`: the document's entities and the defaults (`INITIAL_DATA`, copied
  entry by entry). Also the shallow object spread, the load-time merge, the
  visit counter and the JSON codec.
- `Transforms`: the document-to-document transforms behind the dashboard and
  the contact form: snapshots capped at ten, restore, reset, the id `filter`s,
  the prepend of an inquiry, the field edits, `splice`, and the entries the
  Add buttons append.
- `Storage`: class `Site`, the page's document and its two stores, with load,
  save and contact submission.
- `Admin`: class `Editor`, the dashboard's working copy and one method per
  handler.
- `Terminal`: the command classifier, the replies and class `Console`.
- `Demo`: `getVibeStyles` and the slug.

Behaviour the model keeps as the code has it:

- The merge with the defaults is a shallow top-level spread. A stored
  `socials` object replaces the default one whole.
- Every load adds one to the visit counter. No per-session marker exists.
- New inquiries go to the front of the list.
- Import installs the parsed document as it is, with no merge against the
  defaults. Restoring a snapshot and the contact form do not merge either.
- A snapshot's copy of the document still contains the snapshot list of its
  time, so snapshots nest.
- The contact form writes only the primary store. The legacy local store is
  updated only by the admin Save, and only after the primary store write
  succeeded.
- The terminal help text lists `projects` and `contact`, but the terminal
  answers neither.

Effects become parameters:

- Store outcomes: `readOk`, `writeOk`, `mirrorOk`.
- `prompt` and `confirm` answers: `answer`, `confirmed`.
- Clock readings: `id`, `date`, `timestamp`.
- Chosen files, as data URLs: `file`.
- `parseInt` results: `parsed`.

## Model

| member | source | states |
|---|---|---|
| JsText.TrimStart | index.tsx:1177 | the result is a suffix of the input, what was cut is all white space, and it does not start with white space |
| JsText.TrimEnd | index.tsx:1177 | the result is a prefix of the input, what was cut is all white space, and it does not end with white space |
| JsText.Trim | index.tsx:1177-1180 | the result is an infix between an all-white-space prefix and suffix, and neither of its ends is white space |
| JsText.TrimFixedPoint | index.tsx:1180 | a string is its own trim exactly when neither end is white space |
| JsText.TrimIdempotent | index.tsx:1180 | trimming twice is trimming once |
| JsText.Split | index.tsx:931 | `split(',')` yields one more piece than there are commas, and no piece contains a comma |
| JsText.JoinSplit | index.tsx:931 | joining the pieces of a split with the separator gives the original text |
| JsText.SplitJoin | index.tsx:926-931 | splitting a join of separator-free pieces gives the pieces back |
| JsText.SplitTrimmed | index.tsx:931 | one entry per comma-separated piece; each entry is that piece with its surrounding white space removed, is trimmed and holds no comma |
| JsText.SplitTrimmedOfEmpty | index.tsx:931 | an emptied field parses to one empty entry, not to an empty list |
| JsText.ShownListRoundTrip | index.tsx:926-931 | parsing the shown `join(', ')` of a non-empty list of trimmed, comma-free entries gives the list back |
| JsText.ToLower | index.tsx:1180 | `toLowerCase` keeps the length; its other properties are stated by ToLowerFacts |
| JsText.Join | index.tsx:928 | `join(sep)`; no contract of its own: JoinSplit, SplitJoin and ShownListRoundTrip state what it does with Split |
| JsText.ToLowerFacts | index.tsx:1180 | lower-casing keeps the length and every non-capital, white space included, and leaves no capital |
| JsText.TrimLowerCommute | index.tsx:1177-1180 | lower-casing commutes with trimming, so a line is blank after lower-casing exactly when it was blank |
| Document.InitialIsComplete | index.tsx:204-216 | the defaults (the constant `Document.Initial`, entry by entry as in INITIAL_DATA) carry every key, a zero counter and empty inquiry and snapshot lists |
| Document.Spread | index.tsx:1248 | each key of `{ ...base, ...over }` comes from `over` when it has the key, from `base` otherwise |
| Document.SpreadUnique | index.tsx:1248 | any document with that per-key property is the spread |
| Document.Merge | index.tsx:1246-1254 | the merged document carries every key, and each stored key keeps its stored value |
| Document.MergeEmpty | index.tsx:1248 | an object with no keys merges to the defaults |
| Document.MergeComplete | index.tsx:1248 | a document with every key is unchanged by the merge, and merging is idempotent |
| Document.CountOrZero | index.tsx:1257 | `visitCount || 0`: a missing count reads as 0, a present one as itself |
| Document.CountVisit | index.tsx:1257 | the counter becomes the old count (missing counts as 0) plus one, nothing else changes, and completeness is kept |
| Document.Stringify | index.tsx:1275 | the JSON text of a document parses back to it |
| Document.Parse | index.tsx:1252 | parsing succeeds exactly on the encoding of a document and yields that document |
| Transforms.PushCapped | index.tsx:630 | the new snapshot first, then the old ones in order, at most ten in all |
| Transforms.Labelled | index.tsx:621-622 | `if (label)`: the prompt returned a non-empty string; no contract of its own (a predicate) |
| Transforms.CreateSnapshot | index.tsx:620-633 | a cancelled or empty label changes nothing; otherwise the snapshot of the current document (label, id, date) leads the capped list, and nothing else changes |
| Transforms.SnapshotBound | index.tsx:630 | after a snapshot is taken the history holds at most ten, however long it was before |
| Transforms.SnapshotsNest | index.tsx:627 | a second snapshot's copy holds the first snapshot |
| Transforms.PushAllKeepsNewest | index.tsx:630 | after a run of snapshots the history is the new ones, newest first, then the old ones, cut at ten |
| Transforms.LastTenSnapshots | index.tsx:630 | ten or more snapshots from an empty history leave exactly the last ten, newest first |
| Transforms.Restore | index.tsx:635-640 | declined: unchanged; accepted: the snapshot's copy with the current history, with no merge |
| Transforms.RestoreAfterCreate | index.tsx:620-640 | restoring a snapshot brings back the content of its time and keeps the present history, when the document was only replaced as a whole in between (see Left out) |
| Transforms.Reset | index.tsx:739 | declined: unchanged; accepted: the defaults with the current history |
| Transforms.RemoveId | index.tsx:644 | an entry survives the filter exactly when its id differs, with its multiplicity |
| Transforms.RemoveIdAppend | index.tsx:644 | the filter works piece by piece, so survivors keep their order |
| Transforms.RemoveAbsentId | index.tsx:644 | filtering an id no entry has changes nothing |
| Transforms.RemoveDistinctId | index.tsx:642-647 | with distinct ids, deleting entry k's id removes exactly entry k |
| Transforms.DeleteInquiry | index.tsx:642-647 | declined: unchanged; accepted: only the inquiries change, by the filter on the id |
| Transforms.ClearInquiries | index.tsx:649-653 | declined: unchanged; accepted: the inquiries become empty and nothing else changes |
| Transforms.DeleteSnapshot | index.tsx:1079-1082 | only the snapshot list changes, by the filter on the id |
| Transforms.AddInquiry | index.tsx:1310-1313 | the new inquiry leads the old list (a missing list counts as empty), one longer, and nothing else changes |
| Transforms.NewSkill | index.tsx:937 | the skill the Add button appends (category "New", one item "Skill 1", no icon); no contract of its own |
| Transforms.NewProject | index.tsx:1020 | the project the Add button appends (placeholder title and description, no tags, category "Web App", no image); no contract of its own |
| Transforms.NewTestimonial | index.tsx:1119 | the testimonial the Add button appends (placeholder author and content, role "CEO"); no contract of its own |
| Transforms.AddAllPrepends | index.tsx:1310-1313 | after a run of submissions the inquiries are the new ones, newest first, ahead of the old ones |
| Transforms.SubmitThenDelete | index.tsx:642-647 | after N submissions with distinct ids, deleting one leaves the other N - 1 in order |
| Transforms.SetText | index.tsx:554-559 | only `translations[lang][section][key]` changes, and the section is created when missing |
| Transforms.SetEntry | index.tsx:561-567 | the key gets the value and every other key keeps its entry |
| Transforms.SetProjectImage | index.tsx:573-576 | the projects with the id get the image and all other projects are unchanged |
| Transforms.RemoveAt | index.tsx:921-925 | `splice(i, 1)` drops exactly entry i, keeps the order and loses only that element |
| Storage.Loaded | index.tsx:1243-1256 | stored document, else legacy text, else defaults, each merged; legacy text that does not parse gives no document; a loaded document carries every key |
| Storage.HasLegacyText | index.tsx:1250-1251 | `if (legacy)`: a legacy key holding the empty string counts as absent; no contract of its own (a predicate) |
| Storage.ReloadAfterSave | index.tsx:1242-1276 | the next load starts from the document just saved |
| Storage.LegacyMigration | index.tsx:1249-1254 | with nothing in the primary store, a legacy JSON copy is loaded, merged |
| Storage.AfterLoads | index.tsx:1257-1259 | after any number of successful loads there is still a document to load |
| Storage.VisitCountPerLoad | index.tsx:1257-1259 | n successful loads raise the stored counter by exactly n |
| Storage.Site.constructor | index.tsx:1239 | the page starts on the defaults, not yet loaded |
| Storage.Site.Load | index.tsx:1242-1268 | the loaded document with one more visit is shown and, when the write succeeds, stored; on a failed read or parse nothing changes; the legacy store is never written; the page is marked loaded |
| Storage.Site.Save | index.tsx:1272-1276 | the new document is shown and stored; the legacy copy is written only when both writes succeed |
| Storage.Site.SubmitContact | index.tsx:1297-1317 | the new inquiry is prepended and the document is shown and stored in the primary store only |
| Admin.SetSkillItems | index.tsx:928-932 | only skill idx's items change, to the parsed field |
| Admin.SetProjectTags | index.tsx:974-978 | only project idx's tags change, to the parsed field |
| Admin.RetypeShownItems | index.tsx:926-932 | retyping the shown items of a skill changes nothing |
| Admin.RetypeShownTags | index.tsx:973-978 | retyping the shown tags of a project changes nothing |
| Admin.EmptyTagsInput | index.tsx:973-978 | a new project shows an empty tags field, and an empty field parses to one empty tag |
| Admin.RemoveAdded | index.tsx:920-937 | deleting the entry an Add button appended restores the list |
| Admin.VisitCountInput | index.tsx:762 | a non-number reads as 0, a number as itself |
| Admin.Editor.constructor | index.tsx:535 | the working copy starts as the site's document |
| Admin.Editor.Open | index.tsx:544-546 | opening reloads the working copy from the site |
| Admin.Editor.GeneralChange | index.tsx:554-559 | the working copy's translations become SetText of the old ones |
| Admin.Editor.SocialChange | index.tsx:561-563 | the socials become SetEntry of the old ones |
| Admin.Editor.ContactInfoChange | index.tsx:565-567 | the contact info becomes SetEntry of the old one |
| Admin.Editor.SetVisitCount | index.tsx:762 | the counter becomes the parsed number or 0 |
| Admin.Editor.UploadProjectImage | index.tsx:569-578 | with a file, the matching projects get its data URL; without one, nothing changes |
| Admin.Editor.UploadProfile | index.tsx:580-586 | with a file, the profile image is its data URL; without one, nothing changes |
| Admin.Editor.UploadBanner | index.tsx:588-594 | with a file, the banner image is its data URL; without one, nothing changes |
| Admin.Editor.Export | index.tsx:596-604 | the exported text parses back to the working copy |
| Admin.Editor.Import | index.tsx:606-618 | parseable text replaces the working copy unmerged; other text changes nothing; the reported outcome says which |
| Admin.Editor.TakeSnapshot | index.tsx:620-633 | the working copy becomes CreateSnapshot of it |
| Admin.Editor.RestoreSnapshot | index.tsx:635-640 | the working copy becomes Restore of it |
| Admin.Editor.DeleteInquiry | index.tsx:642-647 | the working copy becomes DeleteInquiry of it |
| Admin.Editor.ClearInquiries | index.tsx:649-653 | the working copy becomes ClearInquiries of it |
| Admin.Editor.ResetDefaults | index.tsx:739 | the working copy becomes Reset of it |
| Admin.Editor.DeleteSnapshot | index.tsx:1079-1082 | the working copy becomes DeleteSnapshot of it |
| Admin.Editor.AddSkill | index.tsx:937 | the default new skill is appended |
| Admin.Editor.RemoveSkill | index.tsx:920-925 | skill idx is spliced out |
| Admin.Editor.EditSkillItems | index.tsx:928-932 | skill idx's items are the parsed field |
| Admin.Editor.AddProject | index.tsx:1020 | the default new project is appended |
| Admin.Editor.RemoveProject | index.tsx:955-958 | project idx is spliced out |
| Admin.Editor.EditProjectTitle | index.tsx:948-952 | only project idx's title changes |
| Admin.Editor.EditProjectDesc | index.tsx:965-969 | only project idx's description changes |
| Admin.Editor.EditProjectTags | index.tsx:973-978 | project idx's tags are the parsed field |
| Admin.Editor.AddTestimonial | index.tsx:1119 | the default new testimonial is appended |
| Admin.Editor.RemoveTestimonial | index.tsx:1106-1110 | testimonial idx is spliced out |
| Admin.Editor.EditTestimonialAuthor | index.tsx:1101-1105 | only testimonial idx's author changes |
| Admin.Editor.EditTestimonialContent | index.tsx:1112-1116 | only testimonial idx's content changes |
| Admin.Editor.Publish | index.tsx:692-697 | the site shows and stores the working copy, as Site.Save does, and the copy is unchanged |
| Admin.BackupThenReload | index.tsx:596-618 | an exported backup imported into a dashboard, saved and reloaded shows the backed-up document merged over the defaults with one more visit, and is what the primary store holds |
| Terminal.Normalize | index.tsx:1180 | `input.toLowerCase().trim()`: the result has no white space at either end |
| Terminal.Response | index.tsx:1179-1184 | a reply other than "Command not found" exactly for help, whois, skills and dbstats |
| Terminal.Classify | index.tsx:1175-1191 | the lower-cased, trimmed line decides: empty is ignored, `clear` and `exit` clear and close, everything else gets the reply for that text |
| Terminal.ClassifyIgnoresBlank | index.tsx:1177-1180 | a line is ignored exactly when it is blank before lower-casing, as the early return tests it |
| Terminal.SameNormalForm | index.tsx:1180 | two lines with the same lower-cased, trimmed text are handled alike |
| Terminal.IgnoresCase | index.tsx:1180 | lower-casing a line does not change how it is handled |
| Terminal.AdvertisedButMissing | index.tsx:1182 | of the commands the help text lists, exactly `projects` and `contact` get "Command not found" |
| Terminal.Submitted | index.tsx:1175-1191 | ignored: unchanged; clear: empty history and input; exit: closed with the input kept; otherwise the line and its reply are appended and the input emptied |
| Terminal.SubmitKeepsConsistent | index.tsx:1175-1191 | every history line stays the answer to its command |
| Terminal.SubmitHistory | index.tsx:1175-1191 | only `clear` shrinks the history; an answered line adds exactly one entry |
| Terminal.Console.constructor | index.tsx:1169-1170 | empty history, empty input, closed |
| Terminal.Console.Show | index.tsx:1370 | the overlay opens and keeps its history and input |
| Terminal.Console.Hide | index.tsx:1339 | the overlay closes and keeps its history and input |
| Terminal.Console.Type | index.tsx:1218 | the input line is the typed text |
| Terminal.Console.Submit | index.tsx:1175-1191 | the console's new state is Submitted of the old one |
| Demo.VibeStyles | index.tsx:335-343 | the default scheme exactly for a vibe outside the four known ones |
| Demo.StyleIdentifiesVibe | index.tsx:335-343 | distinct known vibes get distinct schemes |
| Demo.CollapseSpaces | index.tsx:429 | no white space is left, no longer than the input, and every character is a hyphen or from the input |
| Demo.CollapseFixedPoint | index.tsx:429 | text is unchanged exactly when it has no white space |
| Demo.CollapseWords | index.tsx:429 | two words separated by a white-space run are joined by one hyphen |
| Demo.Slug | index.tsx:429 | the slug has no white space and no capital, and is no longer than the title |
| Demo.SlugIdempotent | index.tsx:429 | a slug is its own slug |

## Left out

- IndexedDB and localStorage plumbing (`initDB`, `saveToDB`, `getFromDB`): the stores are maps, and each call's success is a boolean parameter.
- Asynchrony: a load that finishes after a save, or two saves in flight, is not modelled. Each handler runs as one step.
- The AI calls (Gemini chat, the demo generator's request and JSON parsing), FileReader/`fileToBase64` and Blob downloads: files are given as their data URL, and exported text as a `JsonText`.
- The JSON codec is opaque: every document serialises and parses back, and other text is a parse error. A parsed value that is not an object (a number or a bare `null`) is not modelled. A JSON `null` key reads as a missing key.
- Aliasing: `handleGeneralChange` and the list field edits mutate objects that the working copy shares with the site document, with `INITIAL_DATA` and, after a restore, with the restored snapshot's stored copy (the restore is a shallow spread of `snapshot.data`). The model uses value semantics: each edit changes the working copy only.
- Transforms.RestoreAfterCreate: holds only under value semantics. In the page, the sequence create a snapshot, restore it, edit a project title (or a translation, skill items, tags, a testimonial), restore it again brings back the edited title, because the first restore's `translations`, `skills`, `projects` and `testimonials` are the very objects inside the stored snapshot; Save then stores the altered snapshot.
- Document.Merge: completeness holds only because a key present with the value `null` or `undefined` is modelled as missing. In the page `{ ...INITIAL_DATA, ...saved }` keeps such a key, so an imported backup with `"socials": null`, once saved and reloaded, leaves `socials` null (and the footer's `socials.facebook` fails); likewise a reset while `snapshots` is undefined keeps it undefined.
- JsText.ToLowerFacts: lower-casing is modelled on ASCII letters only; other scripts' case mappings are not.
- The password gate, dialogs' wording and translations, rendering, scrolling, the keyboard shortcut and the dashboard's closing after Save are not modelled.
- Storage.Site.Load: a page that renders a document missing `translations` (after an unmerged import or restore) fails in rendering; this is not modelled.
- Admin.Editor.UploadProjectImage and the list editors require their list to be present and their index in range: they can only be reached from the rendered list.
