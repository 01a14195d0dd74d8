# Garoon calendar plug-in for Box notes: a Dafny model

The plug-in attaches a Box note to a Garoon calendar event. On the event-detail
screen it either offers a "create" button or shows the note stored for the
event. Creating a note takes an API token, looks up the signed-in user and the
collaborators of a template note (the two lookups run side by side), and grants
the user access when needed. It then copies the template, asks for a
company-wide share link, and stores `{ sharedLink }` in the event's datastore.
Every call to Box goes through Garoon's proxy and is accepted only when its
status is exactly one expected code.

The model takes already-parsed responses: a status code plus the body fields
the plug-in reads. Each response comes from a script. The create flow is an
imperative method that logs every request it issues. It is proved equal to a
reference function, and the lemmas state the flow's properties about that
function. These include where it stops, when it grants, what it stores, and
what the next render shows.

Modules:
- `BoxTypes` (`types.dfy`): responses, requests, the error messages, and the table of expected status codes.
- `BoxSteps` (`steps.dfy`): the check applied to each call's response, the collaboration filter, the join of the two lookups, and the grant decision.
- `NoteLinks` (`links.dfy`): the copied note's name, the datastore path, and the derivation of the viewer URL from a share link.
- `NoteCreation` (`create_note.dfy`): the create flow.
- `DetailView` (`view.dfy`): the event-detail handler, the host's records as a map, and how storing or clearing a link changes the next render.

A rejected grant raises the copy-failure message (`src/index.js:148-149`), not
a message of its own, so `StepError(Grant)` is `FailCopyBoxnote`.

## Model

| member | source | states |
|---|---|---|
| `BoxSteps.ReadToken` | src/index.js:64-72 | the token call succeeds exactly when its status is 200 and yields the access token; any other code, including another 2xx, raises the token error |
| `BoxSteps.ReadUserId` | src/index.js:79-95 | the user lookup succeeds exactly when the status is 200 and `total_count` is exactly 1, and yields the first entry's id; zero or several matches, or another status, raise the user error; a count of 1 with no entries is a body error |
| `BoxSteps.UserIdsOf` | src/index.js:114-120 | the user ids are never more than the entries, and are as many exactly when every entry is a user collaboration |
| `BoxSteps.UserIdsOfAppend` | src/index.js:114-120 | filtering then mapping distributes over concatenation, so the ids keep the entries' order |
| `BoxSteps.InUserIdsOf` | src/index.js:114-120 | an id is in the result exactly when some entry is a `"user"` collaboration with that id |
| `BoxSteps.ReadCollaborators` | src/index.js:102-122 | the collaboration list succeeds exactly on status 200 and yields the user ids of its entries; otherwise it raises the collaboration error |
| `BoxSteps.CheckGrant` | src/index.js:129-152 | the grant succeeds exactly on status 201; otherwise it raises the copy-failure message |
| `BoxSteps.ReadCopiedId` | src/index.js:162-185 | the copy succeeds exactly on status 201 and yields the new note's id; otherwise it raises the copy-failure message |
| `BoxSteps.ReadSharedLink` | src/index.js:193-213 | the share-link call succeeds exactly on status 200 and yields the link's url; otherwise it raises the share-link error |
| `BoxSteps.JoinLookups` | src/index.js:257-260 | waiting for both lookups succeeds exactly when both succeed, with both values; otherwise it rejects with an error of a rejected lookup, the only one when one is rejected |
| `BoxSteps.GrantNeededIffNotCollaborator` | src/index.js:262-264 | a grant is needed exactly when no collaboration of the template is a user collaboration for the current user |
| `NoteLinks.NoteName` | src/index.js:174 | the copied note's name is the whole event subject followed by `.boxnote` |
| `NoteLinks.DatastorePath` | src/index.js:225 | the record path is `/api/v1/schedule/events/`, then the event id, then `/datastore/jp.co.cybozu.schedule.box`; the event id can be read back from its position |
| `NoteLinks.DatastorePathInjective` | src/index.js:219-229 | distinct events have distinct datastore record paths |
| `NoteLinks.SaveLink` | src/index.js:219-229 | storing a link is a save of the record `{ sharedLink }` at the event's path, which is the path of no other event |
| `NoteLinks.ClearLink` | src/index.js:235-239 | disconnecting is a delete at the event's path, which is the path of no other event |
| `NoteLinks.LongestMatchUpTo` | src/index.js:298-301 | finds the largest end at most `k` at which the anchored pattern matches, or reports that none does |
| `NoteLinks.StripSharePrefix` | src/index.js:298-301 | the share code is the link after the longest prefix `https://` + one or more non-line-terminators + `.box.com/s/`, or the whole link when nothing matches; it is always a suffix of the link |
| `NoteLinks.StripShareLink` | src/index.js:298-301 | `https://<host>.box.com/s/<code>` gives back exactly `<code>` for any non-empty one-line host and a code with no `/`, even when the host itself contains `.box.com/s/`, so the greedy match wins |
| `NoteLinks.EmbedUrl` | src/index.js:298-304 | the viewer URL is `https://app.box.com/embed/s/`, then the share code the strip yields, then `?showParentPath=false`; a link with no matching prefix is embedded whole |
| `NoteLinks.EmbedUrlOfShareLink` | src/index.js:298-304 | for a non-empty one-line host and a code with no `/`, the viewer URL of `https://<host>.box.com/s/<code>` is `https://app.box.com/embed/s/` + code + `?showParentPath=false` |
| `NoteLinks.StripSharePrefixExample` | src/index.js:298-301 | `https://foo.box.com/s/abc123` has the code `abc123` |
| `NoteLinks.EmbedUrlExample` | src/index.js:298-304 | `https://foo.box.com/s/abc123` gives `https://app.box.com/embed/s/abc123?showParentPath=false` |
| `NoteCreation.Plan` | src/index.js:252-279 | the reference run: the token request always comes first, at most seven requests are issued, and only the last one may touch the event's datastore; the lemmas below state its other properties |
| `NoteCreation.CreateNote` | src/index.js:252-279 | the step-by-step flow issues exactly the requests of the reference run, in order, and ends with its outcome |
| `NoteCreation.CreatedIffAllStepsPass` | src/index.js:254-272 | a note is created exactly when every step passes (the grant only when issued); the stored link is then exactly the share-link call's url, stored by the last request |
| `NoteCreation.NothingStoredOnFailure` | src/index.js:254-278 | a failed run issues no save to the datastore |
| `NoteCreation.TokenRejectionAborts` | src/index.js:254-256 | a token status other than 200 stops the flow after the token request, with the token error |
| `NoteCreation.LookupRejectionAborts` | src/index.js:257-260 | a rejected lookup stops the flow after the token and both lookups, with a rejected lookup's error: the first to settle when both are rejected |
| `NoteCreation.GrantIssuedIffNotCollaborator` | src/index.js:262-264 | the grant request is issued exactly when the token and both lookups pass and the user has no user collaboration on the template |
| `NoteCreation.GrantRejectionAborts` | src/index.js:145-151 | a rejected grant stops the flow before any copy, with the copy-failure message |
| `NoteCreation.CopyRejectionAborts` | src/index.js:176-184 | a copy status other than 201 stops the flow after the copy request, before any share-link request |
| `NoteCreation.ShareRejectionAborts` | src/index.js:205-212 | a share-link status other than 200 stops the flow after that request, with the share-link error |
| `NoteCreation.SuccessfulRunCalls` | src/index.js:162-229 | a passing run issues token, both lookups, the grant when needed, a copy named `<subject>.boxnote` into folder `"0"`, a `"company"` share link for the copy's id, and a POST of `{ sharedLink }` to `/api/v1/schedule/events/<id>/datastore/jp.co.cybozu.schedule.box` |
| `DetailView.ShowCreateButton` | src/index.js:284-290 | the create view is shown exactly when `#create-note-button` is there exactly once; otherwise the element error is raised |
| `DetailView.ShowExistedNote` | src/index.js:297-326 | the note view is shown exactly when the link button, the viewer frame and the disconnect button are each there exactly once; it opens the stored link and embeds its viewer URL; otherwise the element error is raised |
| `DetailView.Render` | src/index.js:328-343 | nothing happens unless `#box-content` is there exactly once; a missing or empty link selects the create view, any other link the note view with its viewer URL; a required element not present exactly once gives the element error |
| `DetailView.StoredLinkIsShown` | src/index.js:219-229 | on a page with `#box-content` exactly once, after a non-empty link is stored on an event, the next render shows that note when its three elements are each there exactly once, and otherwise the element error |
| `DetailView.ClearedLinkShowsCreate` | src/index.js:235-247 | on a page with `#box-content` exactly once, after an event's link is deleted, the next render offers the create button when it is there exactly once, and otherwise the element error |
| `DetailView.OtherEventsUnaffected` | src/index.js:219-247 | storing or deleting one event's link leaves every other event's record unchanged |
| `DetailView.CreatedNoteIsShown` | src/index.js:266-272 | for a passing run whose share link has a non-empty url, on a page whose container and three note elements are each there exactly once, applying the run's requests to the datastore makes the next render show that link and its viewer URL |

## Left out

- Transport and parsing: the proxy call, `garoon.api` and `JSON.parse` are not modelled. Responses are parsed records. A body that is not JSON, which the user lookup parses before checking its status, is not represented.
- Request URLs, headers and HTTP methods are constants handed to the proxy, and the model does not build them. Requests carry only their varying arguments: token, email, user id, file id, name, parent, access, path and record.
- `BoxSteps.JoinLookups`: its contract does not say which error surfaces when both lookups are rejected, because that depends on timing. The model takes that timing as the script's `userSettlesFirst` flag, and `NoteCreation.LookupRejectionAborts` states the choice.
- DOM and UI: jQuery lookups, click handlers, `.show()`, the iframe `src`, `window.open`, the spinner, `alert`, `console.error` and `location.reload`. Only the element counts feed `DetailView.Render`.
- The result of storing a link is not awaited, and its own failure is not reported. The model records the save request and does not model its response.
- A failed delete in `clearSharedLink` is only reported to the user. The model records the delete request and does not model its response.
- A datastore record whose value lacks `sharedLink` (an undefined link) is not represented. Records always carry a string.
- The message texts, and the proxy-failure message that the code declares but never raises, are not modelled. Errors are named after their message keys.
- The template file id placeholder is kept as an opaque constant.
- webpack.common.js is bundler configuration and is not part of this model.
- No single-flight guard against a double click on the create button exists in the code, so none is modelled. Each run is modelled alone.
