# Paani Digital site core, in Dafny

This project models the logic of a small marketing-agency website: its admin page and the
routes and client code around that page. The animated pages are not modelled.

- **Portfolio document** (`Portfolio`). This is the single content document. It has two case-study lists (`store`, `website`) of projects, plus a photo list and a video list. A project has no identifier, so its identity is its position in its list.
- **Admin dashboard** (`Editing`, `Admin`). This covers:
  - the password gate;
  - the working copy of the document and the edits on it: update one field of one item, prepend a template item, and delete an item after confirmation;
  - the confirmation modal, whose `onConfirm` captures the document as it was when the delete was requested;
  - routing an upload result into an item's image field;
  - the save round trip with its `saving` flag.

  The edits are pure functions on the document. A class `AdminDashboard` holds the page's state fields, and its methods are proved against those functions.
- **Pricing catalogue** (`Plans`). This is the literal category and plan data, the first-match slug lookup `getPlanDetails` and `getCustomPackages`.
- **Upload route** (`Upload`). The stored name is the timestamp, then `-`, then the original name with each white-space run turned into `-`. The public URL is `/uploads/<name>`. `POST` is modelled as a method on an `UploadDirectory` object; the outcomes of `mkdir` and `writeFile` are parameters.
- **Chat** (`ChatRoute`, `ChatInterface`). The route validates `question` and `context`, builds the prompt and maps failures to responses. The widget keeps an append-only message list and sends the whole transcript as context.

The outcome of every network call is a parameter, and so are clock readings and generated ids. Each asynchronous handler awaits more than once (the request, then `res.json()`; the chat route also awaits the model and its response). In the admin page and the chat widget, the awaits of one request (the `fetch` and its `res.json()`) are folded into one outcome parameter, and a failing `res.json()` counts as the thrown outcome; each handler is then modelled as one atomic step, or as two: before and after its request. In the upload route the form read is the request itself, and the outcomes of `mkdir` and `writeFile` are two separate parameters. In the chat route the body read is part of the request (an unreadable body is its own case), and the text-generation call with its response is one outcome parameter.

## Model

| member | source | states |
|---|---|---|
| Portfolio.ProjectExtensionality | src/types/portfolio.ts:1-7 | a project is exactly its four string fields and its optional link: projects that agree on every field are equal |
| Editing.WithProjects | src/types/portfolio.ts:24-29 | replacing one case-study list leaves the other list, the photos and the videos untouched |
| Editing.EmptyProject | src/app/admin/page.tsx:204-210 | the project template: four empty strings and `link: ''`; `AddProject` states that it becomes item 0 |
| Editing.NewPhoto | src/app/admin/page.tsx:238-243 | the photo template `{id: now, src: '', alt: '', category: 'Model'}`; `AddPhoto` states that it becomes item 0 |
| Editing.NewVideo | src/app/admin/page.tsx:271-276 | the video template `{id: now, title: '', category: 'Commercial', url: ''}`; `AddVideo` states that it becomes item 0 |
| Editing.Prepend | src/app/admin/page.tsx:204 | `unshift` puts the new item at index 0 and moves old item i to i+1 |
| Editing.Splice | src/app/admin/page.tsx:222 | `splice(index, 1)` removes the item at `index` and shortens the list by one; survivors keep their order; an index past the end removes nothing |
| Editing.Insert | src/app/admin/page.tsx:222 | the reference insertion used to state what a removal loses: one longer, the item at `index` |
| Editing.SpliceInsert | src/app/admin/page.tsx:222 | putting the removed item back at its index restores the list |
| Editing.SpliceMultiset | src/app/admin/page.tsx:255 | a removal takes exactly one occurrence of the removed item out of the list |
| Editing.SplicePrepend | src/app/admin/page.tsx:204-222 | removing index 0 right after a prepend restores the list |
| Editing.SetProjectField | src/app/admin/page.tsx:197 | `{...item, [field]: value}` sets that field and keeps every other field |
| Editing.SetPhotoField | src/app/admin/page.tsx:231 | sets one string field of a photo, keeps its id and other fields |
| Editing.SetVideoField | src/app/admin/page.tsx:264 | sets one field of a video, keeps its id and other fields |
| Editing.UpdateProject | src/app/admin/page.tsx:194-199 | exactly one field of the project at `index` changes; other items, the other list, photos, videos and all lengths are unchanged |
| Editing.AddProject | src/app/admin/page.tsx:201-212 | the empty template with `link: ''` becomes item 0, old items shift by one, other lists unchanged |
| Editing.RemoveProject | src/app/admin/page.tsx:219-224 | the confirmed delete splices the chosen list only; sibling lists unchanged |
| Editing.UpdatePhoto | src/app/admin/page.tsx:228-233 | exactly one field of the photo at `index` changes; everything else unchanged |
| Editing.AddPhoto | src/app/admin/page.tsx:235-245 | prepends `{id: now, src: '', alt: '', category: 'Model'}`; old photos shift by one |
| Editing.RemovePhoto | src/app/admin/page.tsx:252-257 | the confirmed delete splices the photo list only |
| Editing.UpdateVideo | src/app/admin/page.tsx:261-266 | exactly one field of the video at `index` changes; everything else unchanged |
| Editing.AddVideo | src/app/admin/page.tsx:268-278 | prepends `{id: now, title: '', category: 'Commercial', url: ''}`; old videos shift by one |
| Editing.RemoveVideo | src/app/admin/page.tsx:285-290 | the confirmed delete splices the video list only |
| Editing.UpdateProjectSameValue | src/app/admin/page.tsx:194-199 | writing a field's current value leaves the document equal to itself |
| Editing.UpdateProjectLastWins | src/app/admin/page.tsx:194-199 | two writes to the same field: the second one wins |
| Editing.UpdateProjectCommutes | src/app/admin/page.tsx:194-199 | writes to different fields of one project commute |
| Editing.UpdatePhotoLastWins | src/app/admin/page.tsx:228-233 | two writes to the same photo field: the second one wins |
| Editing.UpdateVideoLastWins | src/app/admin/page.tsx:261-266 | two writes to the same video field: the second one wins |
| Editing.AddThenRemoveProject | src/app/admin/page.tsx:201-224 | deleting the project just added gives back the document |
| Editing.AddThenRemovePhoto | src/app/admin/page.tsx:235-257 | deleting the photo just added gives back the document |
| Editing.AddThenRemoveVideo | src/app/admin/page.tsx:268-290 | deleting the video just added gives back the document |
| Editing.RemoveProjectLosesOnlyThatItem | src/app/admin/page.tsx:219-224 | re-inserting the deleted project where it was restores the whole document |
| Admin.Interpolate | src/app/admin/page.tsx:156 | `${x}` of an optional string prints an absent value as `undefined`; `SaveAlert` and `UploadAlert` use it |
| Admin.DetailsSuffix | src/app/admin/page.tsx:156 | the `Details:` tail appears exactly when `details` is present and non-empty |
| Admin.SaveAlert | src/app/admin/page.tsx:152-160 | an alert is shown unless the save response is ok |
| Admin.UploadedUrl | src/app/admin/page.tsx:177 | a URL is taken exactly when the response is ok and carries a non-empty `url` |
| Admin.UploadAlert | src/app/admin/page.tsx:177-188 | an alert is shown exactly when no URL is taken |
| Admin.ApplyDelete | src/app/admin/page.tsx:214-226 | Delete applies the pending removal to the document captured at request time; with no captured document nothing changes |
| Admin.ApplyUpload | src/app/admin/page.tsx:177-182 | a taken URL goes into `photos[index].src` or `caseStudies[category][index].image`; otherwise the document is unchanged |
| Admin.PhotoUploadWritesSrc | src/app/admin/page.tsx:177-179 | a successful photo upload changes that photo's `src` only |
| Admin.ConfirmRemovesRequestedProject | src/app/admin/page.tsx:214-226 | with no edit in between, a confirmed delete removes exactly one occurrence of the requested project and nothing else |
| Admin.AdminDashboard.constructor | src/app/admin/page.tsx:93-113 | initial state: logged out, no document, loading, not saving, no upload, modal closed |
| Admin.AdminDashboard.HandleLogin | src/app/admin/page.tsx:133-140 | authenticated afterwards iff it was or the password is `12345`; otherwise the `Incorrect password` alert |
| Admin.AdminDashboard.FetchPortfolio | src/app/admin/page.tsx:121-131 | a fetched document becomes the working copy; loading ends in every outcome |
| Admin.AdminDashboard.BeginSave | src/app/admin/page.tsx:142-151 | without a document nothing happens; otherwise `saving` is set and the whole working copy is sent |
| Admin.AdminDashboard.FinishSave | src/app/admin/page.tsx:152-163 | the document is untouched, `saving` ends false, success shows the notification, otherwise the alert |
| Admin.AdminDashboard.HandleFileUpload | src/app/admin/page.tsx:166-192 | the document changes only on an ok reply with a URL, into the target field; `uploading` ends null |
| Admin.AdminDashboard.UpdateProjectField | src/app/admin/page.tsx:194-199 | no-op without a document; otherwise the working copy becomes `UpdateProject` of it |
| Admin.AdminDashboard.AddProjectItem | src/app/admin/page.tsx:201-212 | no-op without a document; otherwise `AddProject` of it |
| Admin.AdminDashboard.RemoveProjectItem | src/app/admin/page.tsx:214-226 | only opens the modal with the delete pending and the project texts; the document is untouched |
| Admin.AdminDashboard.UpdatePhotoField | src/app/admin/page.tsx:228-233 | no-op without a document; otherwise `UpdatePhoto` of it |
| Admin.AdminDashboard.AddPhotoItem | src/app/admin/page.tsx:235-245 | no-op without a document; otherwise `AddPhoto` of it |
| Admin.AdminDashboard.RemovePhotoItem | src/app/admin/page.tsx:247-259 | only opens the modal with the photo delete pending |
| Admin.AdminDashboard.UpdateVideoField | src/app/admin/page.tsx:261-266 | no-op without a document; otherwise `UpdateVideo` of it |
| Admin.AdminDashboard.AddVideoItem | src/app/admin/page.tsx:268-278 | no-op without a document; otherwise `AddVideo` of it |
| Admin.AdminDashboard.RemoveVideoItem | src/app/admin/page.tsx:280-292 | only opens the modal with the video delete pending |
| Admin.AdminDashboard.ConfirmDelete | src/app/admin/page.tsx:51-52 | Delete runs `onConfirm` (`ApplyDelete`) and then closes the modal |
| Admin.AdminDashboard.CloseModal | src/app/admin/page.tsx:326-332 | Cancel and the backdrop close the modal without touching the document |
| Plans.PricingData | src/data/Plans.ts:31-255 | the literal catalogue; `CategorySlugs`, `PlanShape`, `ProductionShape` and `SharedCustomPackages` state its shape |
| Plans.FindBySlug | src/data/Plans.ts:258 | `find` by slug: none iff no element has the slug, otherwise the first one that has it |
| Plans.FindUniqueSlug | src/data/Plans.ts:258-261 | with unique slugs, an element's own slug finds that element |
| Plans.PlanDetails | src/data/Plans.ts:257-262 | a found plan has the requested slug and belongs to a category with the requested slug |
| Plans.GetCustomPackages | src/data/Plans.ts:264-266 | `getCustomPackages()` is the add-on list the plan categories share, with nine entries |
| Plans.CategorySlugs | src/data/Plans.ts:44-254 | four categories: `manufacturer`, `distributor`, `organization`, `production`, with unique slugs |
| Plans.PlanShape | src/data/Plans.ts:49-188 | each of the first three categories has `plan-a`, `plan-b`, `plan-c` in order, and exactly `plan-b` is popular |
| Plans.ProductionShape | src/data/Plans.ts:191-253 | `production` has no plans, eleven production services and no add-on list |
| Plans.SharedCustomPackages | src/data/Plans.ts:91-189 | the first three categories carry the same add-on list |
| Plans.UnknownCategory | src/data/Plans.ts:258-259 | an unknown category slug finds no plan |
| Plans.ProductionHasNoPlanDetails | src/data/Plans.ts:252-261 | no plan can be found under `production` |
| Plans.PlanDetailsFindsEveryPlan | src/data/Plans.ts:257-262 | every plan of every category is found by its category's slug and its own |
| Plans.PopularPlanLookup | src/data/Plans.ts:63-75 | looking up `plan-b` in any of the first three categories gives the popular plan |
| Text.IsWhitespace | src/app/api/upload/route.ts:26 | the characters JavaScript's `\s` and `trim` treat as white space; `ReplaceWhitespaceRuns` and `IsBlank` are stated in its terms |
| Text.IsBlank | src/components/chatbot/ChatInterface.tsx:130 | `!input.trim()`: every character is white space; `BeginSend` states that a blank input sends nothing |
| Text.Join | src/components/chatbot/ChatInterface.tsx:186 | `join('\n')`; `SplitJoin` proves that splitting undoes it and `JoinAppend` that one more line appends the separator and the line |
| Text.Decimal | src/app/api/upload/route.ts:26 | `${Date.now()}` is a non-empty string of digits, with a leading zero only for 0 |
| Text.DecimalRoundTrip | src/app/api/upload/route.ts:26 | reading the rendered timestamp back gives the timestamp |
| Text.SplitJoin | src/components/chatbot/ChatInterface.tsx:186 | lines without the separator are recovered by splitting their join |
| Upload.SkipWhitespace | src/app/api/upload/route.ts:26 | strips a maximal leading white-space run: what is dropped is blank, what is left starts with a non-white-space character |
| Upload.ReplaceWhitespaceRuns | src/app/api/upload/route.ts:26 | `replace(/\s+/g, rep)` with a white-space-free `rep` leaves no white space |
| Upload.ReplaceAgreesWithScan | src/app/api/upload/route.ts:26 | the run-by-run replacement equals a character-by-character scan that writes `rep` once per run |
| Upload.ReplaceWithoutWhitespace | src/app/api/upload/route.ts:26 | a name without white space is unchanged |
| Upload.ReplaceKeepsOtherCharacters | src/app/api/upload/route.ts:26 | apart from dashes, the sanitised name is the original's non-white-space characters in order |
| Upload.ReplaceWithNothingErases | src/app/api/upload/route.ts:26 | with an empty replacement the operation is exactly white-space removal |
| Upload.Erase | src/app/api/upload/route.ts:26 | the reference white-space removal leaves no white space |
| Upload.SanitizeName | src/app/api/upload/route.ts:26 | the sanitised name contains no white space |
| Upload.SanitizeIdempotent | src/app/api/upload/route.ts:26 | sanitising twice is sanitising once |
| Upload.FilenameRoundTrip | src/app/api/upload/route.ts:26 | the stored name splits back into the timestamp and the sanitised name |
| Upload.PublicUrlRoundTrip | src/app/api/upload/route.ts:31-32 | the URL is `/uploads/` and the stored name, and reads back to timestamp and sanitised name |
| Upload.Filename | src/app/api/upload/route.ts:26 | `${Date.now()}-${name}` with white-space runs replaced; `FilenameRoundTrip` proves it reads back to both parts |
| Upload.PublicUrl | src/app/api/upload/route.ts:31 | `/uploads/${filename}`; `PublicUrlRoundTrip` proves it reads back |
| Upload.FileMissing | src/app/api/upload/route.ts:8-12 | `!file`: no entry or an empty text entry; `Post` states that it gives 400 with no file-system effect |
| Upload.UploadDirectory.Post | src/app/api/upload/route.ts:5-37 | unreadable form, failed `mkdir`/`writeFile` or a text entry give 500; a missing file gives 400 before any file-system effect; the directory is created only when absent; success stores the bytes under the derived name, taken to lie inside the directory, and returns its URL |
| ChatRoute.Prompt | src/app/api/chat/route.ts:64 | `${context}\n\nQuestion: ${question}`; `PromptParts` and `PromptInjective` state its parts |
| ChatRoute.ErrorResponse | src/app/api/chat/route.ts:71-91 | a 500 with `Failed to process request`; `details` present exactly in development, the thrown message or `Unknown error` |
| ChatRoute.PromptParts | src/app/api/chat/route.ts:64 | the prompt is `context`, then the separator, then `question` |
| ChatRoute.PromptInjective | src/app/api/chat/route.ts:64 | for one context, the prompt determines the question |
| ChatRoute.HandleChat | src/app/api/chat/route.ts:52-92 | the upstream is called exactly when both fields are given; otherwise 400; 200 iff it generated, with its text unchanged; every other outcome is a 500 with details only in development (the message or `Unknown error`) |
| ChatInterface.Transcript | src/components/chatbot/ChatInterface.tsx:186 | the messages' lines joined by line breaks; `TranscriptRoundTrip`, `LineBreakMimicsNextMessage` and `TranscriptAppend` state what it conveys |
| ChatInterface.Context | src/components/chatbot/ChatInterface.tsx:144-186 | the fixed preamble followed by the transcript; `ClientRequestsAreValid` states that it passes the route's check |
| ChatInterface.Lines | src/components/chatbot/ChatInterface.tsx:186 | one `User: t` / `Assistant: t` line per message, in order |
| ChatInterface.Said | src/components/chatbot/ChatInterface.tsx:186 | the conversation as speaker and text pairs, in order |
| ChatInterface.ParseLineOfLine | src/components/chatbot/ChatInterface.tsx:186 | a line reads back to its speaker and text |
| ChatInterface.ParseLinesOfLines | src/components/chatbot/ChatInterface.tsx:186 | the lines read back to the conversation |
| ChatInterface.TranscriptRoundTrip | src/components/chatbot/ChatInterface.tsx:186 | when no text has a line break, the transcript lists every message with its speaker, in order |
| ChatInterface.LineBreakMimicsNextMessage | src/components/chatbot/ChatInterface.tsx:186 | a text that contains a line break and another message's line gives the same transcript as two messages, so the transcript does not determine the conversation |
| ChatInterface.TranscriptAppend | src/components/chatbot/ChatInterface.tsx:139-186 | a new message adds exactly one line at the end of the transcript |
| ChatInterface.JoinAppend | src/components/chatbot/ChatInterface.tsx:186 | joining one more line appends the separator and that line |
| ChatInterface.ReplyText | src/components/chatbot/ChatInterface.tsx:200-227 | a reply is `data.response` unchanged; a non-ok response gives the apology followed by the body's truthy `error`, else `HTTP error! status: N`; a throw gives the apology followed by the `Error`'s message, else `An unexpected error occurred` |
| ChatInterface.ClientOutcome | src/components/chatbot/ChatInterface.tsx:200-209 | a 2xx response is a reply carrying the body's `response`; otherwise an HTTP error with the status and the body's `error` |
| ChatInterface.ChatSession.constructor | src/components/chatbot/ChatInterface.tsx:107-114 | exactly one greeting message, not from the user; empty input; not loading |
| ChatInterface.ChatSession.SetInput | src/components/chatbot/ChatInterface.tsx:288 | the input box holds the typed value |
| ChatInterface.ChatSession.BeginSend | src/components/chatbot/ChatInterface.tsx:129-198 | blank input changes nothing; otherwise one user message with the untrimmed input is appended, input cleared, loading set, and the context carries the whole transcript |
| ChatInterface.ChatSession.FinishSend | src/components/chatbot/ChatInterface.tsx:200-230 | exactly one non-user message with `ReplyText` is appended and loading ends |
| ChatInterface.ClientRequestsAreValid | src/app/api/chat/route.ts:57-64 | every request the widget sends passes the route's validation, so the route forwards its prompt |
| ChatInterface.ReplyForRouteResponse | src/components/chatbot/ChatInterface.tsx:200-227 | end to end: the reply is the generated text, or the apology followed by `Failed to process request` |

## Left out

- Rendering is not modelled: JSX, framer-motion animation, MUI styling, the tab switcher, the success notification's 3-second auto-dismiss timer, and scrolling to the newest message.
- The network calls and the text-generation SDK are not modelled. Their outcomes are parameters, and so are `Date.now()`, `new Date()` and the generated message ids. Nothing is claimed about id uniqueness.
- `src/app/api/portfolio/route.ts` is not part of this model. It reads and writes the whole document through the file system. The JSON deep copy is modelled as value copying, so its dropping of `undefined` optional fields is not captured.
- The handlers are modelled as atomic steps. The source's `handleFileUpload` continues with the `data` it captured before its `await`, so edits made during an upload can be lost; the model applies the upload to the current document. `uploading` tracks one index, as in the source, and interleaved uploads are not modelled.
- Admin.AdminDashboard.UpdateProjectField, UpdatePhotoField, UpdateVideoField and HandleFileUpload require an index inside the list. Every caller passes the index of a rendered item. In JavaScript an index past the end would create a hole and a partial item.
- Admin.AdminDashboard.UpdatePhotoField and UpdateVideoField write only the string fields the page edits. Writing `id` or a non-string value through `value: any` is not modelled, because no caller does it.
- Admin.AdminDashboard.FetchPortfolio only accepts a document body. The source stores whatever JSON the GET returns, an error object included, because it does not check `res.ok`.
- Admin.AdminDashboard.BeginSave requires that no save is in flight: the Save button is disabled while saving.
- ChatInterface.ChatSession.BeginSend requires that no reply is pending: the input and the send button are disabled while loading.
- Text.IsWhitespace lists the code points that JavaScript treats as white space for `\s` and `trim`. The regular-expression engine itself is not modelled.
- ChatRoute.HandleChat models `question` and `context` as absent or string values. Other JSON values and their truthiness are not modelled. The route module's start-up failure when the API key is missing is not modelled either.
- Upload.UploadDirectory.Post models the upload directory as a flat map from stored name to bytes, so it assumes the stored name resolves to a file inside `public/uploads`. The source joins the name with `path.join`, which resolves `..` and `/` segments; a client file name such as `a/../../x.png` would be written outside the directory. Whether the form parser keeps `/` in file names is outside the modelled code, so this is not claimed as a finding.
- Upload.UploadDirectory.Post takes `fs.access` to fail exactly when the directory is absent, and leaves out other causes such as permissions. Reading the file into a buffer is taken to succeed.
