# RoboAut website — a verified model of its rules

The RoboAut club website (Next.js) holds little logic of its own. Most of it
is markup over content fetched from a Strapi CMS. This project models the
rules that do decide something, with the network, the clock and the DOM
replaced by parameters:

- **Registration e-mail pipeline** (`webhook.dfy`, `email.dfy`). The CMS
  webhook `POST /api/data` recognises a newly created form entry. It sends a
  confirmation e-mail built from a fixed HTML template. It always answers
  with one of two fixed JSON responses. The Brevo call is an outcome
  parameter (accepted with a message id, or rejected with a message).
- **Form state machines** (`registration.dfy`, `contact.dfy`). These are the
  event-registration modal (optional PDF resume, upload, then registration)
  and the "Reach us" contact form. Each is a class whose fields are the
  component's state. `handleSubmit` is split at its `await` into
  `BeginSubmit` and `FinishSubmit`. Request results are outcome values. The
  `setTimeout` callbacks are explicit `SuccessTimerFired` methods.
- **Classification, partition and counting** (`events.dfy`,
  `events_section.dfy`, `team.dfy`, `gallery.dfy`). This covers the
  upcoming/past split of events, badge colours, the registration fill
  level, per-department member counts and the designation colour/icon/badge
  rules. It also covers the flattening of gallery photos.
- **Navigation state** (`image_modal.dfy`, `navbar.dfy`). This covers the
  lightbox's wrap-around index arithmetic and key dispatch, and the navbar's
  scroll-driven show/hide rule.

`text.dfy` models the JavaScript string operations these rules use:
`toLowerCase`, `includes`, `indexOf` and `replace` with a string pattern.
`js.dfy` models the JavaScript values the handlers inspect: `undefined`,
`null` or a string; caught exceptions; truthiness; template interpolation;
and the outcome of a `fetch`.

The webhook does not acknowledge every request. A body that fails to parse
becomes `null` (`route.ts:6`). The next line reads `body.model` from it,
which throws a `TypeError`. So the handler answers 500 with the details
"Cannot read properties of null (reading 'model')"
(`Webhook.UnparsableBodyFails`).

## Model

| member | source | states |
|---|---|---|
| Webhook.ParsedOrNull | roboaut/src/app/api/data/route.ts:6 | a body that does not parse is `null`; a parsed body is kept as it is |
| Webhook.Failure | roboaut/src/app/api/data/route.ts:25-29 | the failure answer is status 500, `success: false`, carrying the given details |
| Webhook.Respond | roboaut/src/app/api/data/route.ts:18-30 | a normally finished handler answers the fixed 200 acknowledgement; a thrown exception answers 500 with the Error's message, or 'Unknown error' for a non-Error |
| Js.MessageOr | roboaut/src/app/api/data/route.ts:28 | an Error gives its message; any other thrown value gives the fallback |
| Webhook.Dispatch | roboaut/src/app/api/data/route.ts:8-30 | `sendFormEmail` is called exactly when the body is a form `entry.create` whose entry can be read; every response is either the acknowledgement or a 500 failure; a call is always followed by the acknowledgement |
| Webhook.RegistrationSendsEntryFields | roboaut/src/app/api/data/route.ts:8-14 | a new registration makes one call with ParticipantName, RegistrationNumber, Email, Contact and event, in that order, and is acknowledged |
| Webhook.OtherEventsIgnored | roboaut/src/app/api/data/route.ts:8-21 | any other model or event is acknowledged with 200 and sends no e-mail |
| Webhook.UnparsableBodyFails | roboaut/src/app/api/data/route.ts:6-30 | an unparsable body gets 500 with the `TypeError` message for reading `model` of `null`, and no e-mail |
| Webhook.MissingEntryFails | roboaut/src/app/api/data/route.ts:9-30 | a matching event whose entry is missing or `null` throws while the fields are read: 500 and no e-mail |
| Webhook.StatusMatchesSuccess | roboaut/src/app/api/data/route.ts:18-30 | the status is 200 or 500, and it is 200 exactly when `success` is true |
| Webhook.Run | roboaut/src/app/api/data/route.ts:6-16 | the `try` block throws exactly on a `null` body or a new registration without an entry object, always an Error; it calls `sendFormEmail` exactly for a new registration with a readable entry, with the entry's five fields in order |
| Webhook.Post | roboaut/src/app/api/data/route.ts:3-31 | the response is the decision's response whatever the e-mail result; an e-mail is sent exactly when the decision calls for one; the message sent is the confirmation rendered from the call's five arguments, to the call's e-mail from the fixed sender and subject; the result is the provider's message id on acceptance and its message or 'Failed to send email' on rejection |
| Email.FieldsOf | roboaut/src/utils/sendEmail.js:252-294 | the five fields are interpolated verbatim (`undefined`/`null` as text); the event row shows the event, or 'General Registration' when it is falsy |
| Email.EventRowFallback | roboaut/src/utils/sendEmail.js:285 | the rendered e-mail uses 'General Registration' for a falsy event, including '', and the event itself otherwise |
| Email.Render | roboaut/src/utils/sendEmail.js:33-341 | the template: fixed fragments with the name twice, then registration number, e-mail, phone, event label and date, then the registration number again; no contract of its own, its properties are the lemmas below |
| Email.RenderLength | roboaut/src/utils/sendEmail.js:33-341 | the body's length is the template's fixed length plus the field lengths, name and registration number counted twice: apart from the fields and the date, the text is fixed |
| Email.NameAppearsTwice | roboaut/src/utils/sendEmail.js:252-265 | the name occurs verbatim in the greeting and in the Name row |
| Email.RegistrationNumberAppearsTwice | roboaut/src/utils/sendEmail.js:270-302 | the registration number occurs verbatim in its row and in the closing note |
| Email.RenderContainsFields | roboaut/src/utils/sendEmail.js:252-294 | the body contains the name, registration number, e-mail, phone, event label and date, unescaped |
| Email.SendTemplateEmail | roboaut/src/utils/sendEmail.js:6-27 | the message has the subject, the sender `{email: from}`, one recipient `{email: to, name}` with name '' when omitted, and the HTML; an accepted call gives success with the message id; a throwing call gives failure with its message or 'Failed to send email' |
| Email.SendFormEmail | roboaut/src/utils/sendEmail.js:343-349 | sends the rendered confirmation to `email` from 'registration@roboaut.in' with the fixed subject and recipient name `name`, and returns the template sender's result |
| Registration.WithField | roboaut/src/components/EventRegistrationModal.tsx:35-41 | the named field takes the value and the other three keep theirs |
| Registration.RegistrationModal.constructor | roboaut/src/components/EventRegistrationModal.tsx:22-32 | empty fields, no file, not submitting, status idle, no message |
| Registration.RegistrationModal.InputChange | roboaut/src/components/EventRegistrationModal.tsx:35-41 | only the named form field changes |
| Registration.RegistrationModal.FileChange | roboaut/src/components/EventRegistrationModal.tsx:43-51 | a PDF is stored; another file is rejected and leaves the stored file as it was; no file changes nothing |
| Registration.RegistrationModal.BeginSubmit | roboaut/src/components/EventRegistrationModal.tsx:53-59 | without an event nothing changes; otherwise submitting starts with status idle and no message, and the form, file and event are captured |
| Registration.ResumeReference | roboaut/src/components/EventRegistrationModal.tsx:63-80 | the resume id is `null` unless a file was chosen and the upload answered ok, and then it is the first uploaded file's id (missing when there is none) |
| Registration.PayloadOf | roboaut/src/components/EventRegistrationModal.tsx:90-99 | the registration payload is the four fields, the event's document id and the resume reference |
| Registration.FailureMessage | roboaut/src/components/EventRegistrationModal.tsx:103-134 | the message is the upload's or request's Error message, the answer's `error.message` or 'Failed to submit registration', or the generic fallback for a non-Error |
| Registration.RegistrationModal.FinishSubmit | roboaut/src/components/EventRegistrationModal.tsx:61-137 | the registration is sent unless the upload threw; success exactly when it was sent and answered ok, and then the fields and the file are reset; on failure status error with the message and the form is kept; never still submitting |
| Registration.RegistrationModal.SuccessTimerFired | roboaut/src/components/EventRegistrationModal.tsx:126-129 | the status returns to idle and the owner is asked to close |
| Registration.RegistrationModal.HandleClose | roboaut/src/components/EventRegistrationModal.tsx:140-146 | ignored while submitting; otherwise status idle, message cleared and the owner asked to close |
| Registration.RegistrationCycle | roboaut/src/components/EventRegistrationModal.tsx:35-146 | from a fresh modal with typed fields and a PDF, a close during submission is ignored; a failed upload still registers without a resume; a successful upload registers with its id; success exactly when the upload did not throw and the registration answered ok |
| Contact.WithField | roboaut/src/app/reach-us/page.tsx:20-26 | the named field takes the value and the other three keep theirs |
| Contact.ContactForm.constructor | roboaut/src/app/reach-us/page.tsx:9-18 | empty fields, not submitting, status idle, no message |
| Contact.ContactForm.InputChange | roboaut/src/app/reach-us/page.tsx:20-26 | only the named field of YourName, Email, Subject, Description changes |
| Contact.ContactForm.BeginSubmit | roboaut/src/app/reach-us/page.tsx:28-44 | submitting starts with status idle and no message; the body is the current form under `data` |
| Contact.FailureMessage | roboaut/src/app/reach-us/page.tsx:48-73 | a not-ok answer gives its `error.message` or 'Failed to submit form'; a thrown Error its message; anything else the generic fallback |
| Contact.ContactForm.FinishSubmit | roboaut/src/app/reach-us/page.tsx:48-76 | success exactly on an ok answer, and then the fields are reset; on failure status error with the message and the fields are kept; never still submitting |
| Contact.ContactForm.SuccessTimerFired | roboaut/src/app/reach-us/page.tsx:66-68 | the status returns to idle and nothing else changes |
| Contact.SubmitCycle | roboaut/src/app/reach-us/page.tsx:20-76 | the typed fields are sent; after success and the timer the form is empty and idle; after a failure the typed fields remain and the status is error |
| EventsPage.UpcomingEvents | roboaut/src/app/events/page.tsx:75-77 | an event is listed exactly when it is in the events and its status is Open or Closed |
| EventsPage.PastEvents | roboaut/src/app/events/page.tsx:78-80 | an event is listed exactly when it is in the events and its status is Completed |
| EventsPage.UpcomingKeepsOrder | roboaut/src/app/events/page.tsx:75-77 | filtering a concatenation filters each part, so the order of events is kept |
| EventsPage.PastKeepsOrder | roboaut/src/app/events/page.tsx:78-80 | filtering a concatenation filters each part, so the order of events is kept |
| EventsPage.UpcomingAndPastPartition | roboaut/src/app/events/page.tsx:19-80 | every event is in exactly one of the two lists, and their lengths add up to the number of events |
| EventsPage.EventTypeColor | roboaut/src/app/events/page.tsx:84-92 | red exactly when the lower-cased type contains 'competition'; blue, green, purple and yellow exactly when it contains 'workshop', 'seminar', 'hackathon' or 'exhibition' respectively and none of the earlier keywords; gray exactly when it contains none of the five |
| EventsPage.EventTypeColorIgnoresCase | roboaut/src/app/events/page.tsx:84-85 | the colour of a type and of its lower-cased form agree |
| EventsPage.StatusColor | roboaut/src/app/events/page.tsx:94-101 | Open is green, Closed red, Completed gray, each exactly |
| EventsPage.RegisterButtonFor | roboaut/src/app/events/page.tsx:357-368 | the button is disabled and reads 'Registration Closed' exactly for a Closed event, and reads 'Register Now' otherwise |
| EventsPage.RegisterEnabledExactlyForOpen | roboaut/src/app/events/page.tsx:308-368 | among listed upcoming events the button is enabled exactly for Open ones |
| EventsPage.Page.constructor | roboaut/src/app/events/page.tsx:28-35 | no events, loading, no error, modal closed, nothing selected, upcoming tab |
| EventsPage.Page.LoadEvents | roboaut/src/app/events/page.tsx:48-71 | an ok answer stores its `data` list, or no events without one; a not-ok answer records 'Failed to fetch events'; a throw records its message or 'An error occurred'; loading ends either way |
| EventsPage.Page.RegisterClick | roboaut/src/app/events/page.tsx:38-41 | the event is selected and the modal opens |
| EventsPage.Page.CloseModal | roboaut/src/app/events/page.tsx:43-46 | the modal closes and the selection is cleared |
| EventsPage.Page.SelectTab | roboaut/src/app/events/page.tsx:134-153 | only the active tab changes |
| EventsPage.Page.Content | roboaut/src/app/events/page.tsx:161-410 | skeletons while loading; the error exactly when loading is over and the message is truthy (not `null`, not ''); otherwise the active tab's filtered list |
| EventsSection.RegistrationStatus | roboaut/src/components/sections/EventsSection.tsx:98-103 | with seats, almost full exactly when 10·current ≥ 9·max, filling fast exactly when 9·max > 10·current ≥ 7·max; with no seats, almost full exactly when some are registered |
| EventsSection.PercentAsIntegers | roboaut/src/components/sections/EventsSection.tsx:99-101 | `(current / max) * 100 >= t` in exact arithmetic is `100·current ≥ t·max` |
| EventsSection.RegistrationStatusMatchesPercentage | roboaut/src/components/sections/EventsSection.tsx:98-103 | each level holds exactly when the percentage is at least 90, between 70 and 90, or below 70 |
| EventsSection.RegistrationStatusMonotone | roboaut/src/components/sections/EventsSection.tsx:98-103 | more registrations for the same seats never give a less full level |
| EventsSection.FixedEventsFillingFast | roboaut/src/components/sections/EventsSection.tsx:9-50 | the three fixed upcoming events (45/60, 28/40, 120/150) all show 'Filling Fast' |
| EventsSection.EventTypeColor | roboaut/src/components/sections/EventsSection.tsx:87-96 | each of the five exact names has its colour; every other string is gray |
| EventsSection.LowerCaseWorkshopDiffers | roboaut/src/components/sections/EventsSection.tsx:87-96 | 'workshop' is gray in the section but blue on the events page |
| EventsSection.RewriteHue | roboaut/src/components/sections/EventsSection.tsx:172 | for a hyphen-free colour name, replacing 'text-' by a prefix and then the first '-400' by a suffix gives prefix, name, suffix |
| EventsSection.BadgeClassesOfFill | roboaut/src/components/sections/EventsSection.tsx:172 | each fill badge gets 'border-X-400/30', 'bg-X-400/10' and 'text-X-400' of its own colour |
| EventsSection.Section.constructor | roboaut/src/components/sections/EventsSection.tsx:7 | the upcoming tab is active at first |
| EventsSection.Section.SelectTab | roboaut/src/components/sections/EventsSection.tsx:133-143 | the chosen tab becomes active |
| EventsSection.Section.Rendered | roboaut/src/components/sections/EventsSection.tsx:157-255 | exactly one list renders, the active tab's |
| Team.GroupOf | roboaut/src/app/team/page.tsx:69-86 | a designation is general exactly when it mentions no keyword of any group, and otherwise is in the group it is assigned |
| Team.InGroupByKeywords | roboaut/src/app/team/page.tsx:69-86 | membership of each group is the disjunction of its keywords, as the chains test it |
| Team.GroupOfAsChain | roboaut/src/app/team/page.tsx:69-86 | the group is the first in the order founder/president, head/lead, technical/developer, research, events/coordinator, media/content that the lower-cased designation mentions |
| Team.DepartmentColor | roboaut/src/app/team/page.tsx:69-86 | `getDepartmentColor`'s chain as written; no contract of its own, `Team.ColorFollowsPriority` states it |
| Team.DepartmentIcon | roboaut/src/app/team/page.tsx:89-106 | `getDepartmentIcon`'s chain as written; no contract of its own, `Team.IconFollowsPriority` states it |
| Team.ColorFollowsPriority | roboaut/src/app/team/page.tsx:69-86 | `getDepartmentColor` gives the colour of that first group |
| Team.IconFollowsPriority | roboaut/src/app/team/page.tsx:89-106 | `getDepartmentIcon` gives the icon of the same group, so icon and colour always match |
| Team.BadgeLabel | roboaut/src/app/team/page.tsx:336-341 | 'Leadership' exactly when the designation has 'Founder' or 'President' as written; 'Management' exactly when it has neither but has 'Head'; 'Team Member' exactly when it has none of the three |
| Team.LowerCaseFounderBadge | roboaut/src/app/team/page.tsx:336-341 | a lower-case 'founder' is in the leadership group but its badge is 'Team Member' |
| Team.CountMatching | roboaut/src/app/team/page.tsx:113-118 | a department count never exceeds the number of members |
| Team.CountMatchingAppend | roboaut/src/app/team/page.tsx:113-118 | counting a concatenation counts each part |
| Team.CountMatchingZero | roboaut/src/app/team/page.tsx:113-118 | the count is 0 exactly when no member is in the group |
| Team.CountFor | roboaut/src/app/team/page.tsx:112-126 | 'all' counts every member; any count is at most that; a value outside the five departments counts 0 |
| Team.DepartmentsOverlap | roboaut/src/app/team/page.tsx:113-118 | one member can count in two departments, so department counts can add up to more than 'all' |
| Team.TeamPage.constructor | roboaut/src/app/team/page.tsx:25-66 | no members, loading, no error, and the five departments in order with count 0 |
| Team.TeamPage.UpdateDepartmentCounts | roboaut/src/app/team/page.tsx:111-127 | every department's count, and nothing else, is overwritten with its value's count |
| Team.TeamPage.LoadMembers | roboaut/src/app/team/page.tsx:129-151 | an ok answer stores its list, so the grid then shows exactly the fetched list, and recounts every department, keeping each entry's value, label and icon; a failure keeps members and counts and records 'Failed to fetch team members' or the thrown message |
| Team.TeamPage.Displayed | roboaut/src/app/team/page.tsx:156 | the grid shows the fetched members as fetched, in order |
| Team.TeamPage.Overview | roboaut/src/app/team/page.tsx:352 | the overview shows the four departments after 'all', in order |
| Gallery.PhotosOf | roboaut/src/app/gallery/page.tsx:57-59 | a collection contributes its photo list, or nothing when `Photos` is missing or not an array |
| Gallery.FlattenPhotos | roboaut/src/app/gallery/page.tsx:55-61 | the loop's result is the in-order concatenation of the valid photo lists |
| Gallery.FlattenAppend | roboaut/src/app/gallery/page.tsx:55-61 | flattening a concatenation of collections flattens each part |
| Gallery.FlattenLength | roboaut/src/app/gallery/page.tsx:55-61 | the number of photos is the sum of the valid lists' lengths |
| Gallery.FlattenMembership | roboaut/src/app/gallery/page.tsx:55-61 | a photo is listed exactly when some collection's valid list has it |
| Gallery.GalleryPage.constructor | roboaut/src/app/gallery/page.tsx:25-32 | no collections or photos, loading, no error, modal closed at index 0 |
| Gallery.GalleryPage.LoadGalleries | roboaut/src/app/gallery/page.tsx:35-72 | an ok answer stores its collections, or none without `data`, and their flattened photos; a failure keeps both and records 'Failed to fetch galleries' or the thrown message |
| Gallery.GalleryPage.ImageClick | roboaut/src/app/gallery/page.tsx:74-77 | the index is set and the modal opens |
| Gallery.GalleryPage.CloseModal | roboaut/src/app/gallery/page.tsx:79-81 | the modal closes and the index is kept |
| Gallery.GalleryPage.Navigate | roboaut/src/app/gallery/page.tsx:83-85 | only the index changes |
| Gallery.GalleryPage.KeyPressed | roboaut/src/components/ImageModal.tsx:30-39 | with the lightbox open, Escape closes it and keeps the index; with more than one photo, left moves to the previous and right to the next index and the lightbox stays open; any other key changes nothing; a valid index stays valid; with it closed nothing happens |
| Gallery.GalleryPage.Content | roboaut/src/app/gallery/page.tsx:127-190 | the error shows exactly when loading is over and the message is truthy (not `null`, not ''); the empty state exactly when loading is over, the message is falsy and there are no photos; otherwise the grid with the photo and collection counts |
| ImageModal.Previous | roboaut/src/components/ImageModal.tsx:19-22 | `goToPrevious`'s index, one back and wrapping to the last; no contract of its own, the lemmas below state its range and wrap-around |
| ImageModal.Next | roboaut/src/components/ImageModal.tsx:24-27 | `goToNext`'s index, one on and wrapping to the first; no contract of its own, the lemmas below state its range and wrap-around |
| ImageModal.StepsAreModular | roboaut/src/components/ImageModal.tsx:19-27 | on a valid index, next is `(i + 1) mod n` and previous is `(i - 1 + n) mod n` |
| ImageModal.StepsStayInRange | roboaut/src/components/ImageModal.tsx:19-27 | both moves keep a valid index in `[0, n)` |
| ImageModal.StepsAreInverse | roboaut/src/components/ImageModal.tsx:19-27 | next and previous undo each other on valid indices |
| ImageModal.KeyPress | roboaut/src/components/ImageModal.tsx:31-39 | Escape always closes; the arrows navigate exactly when there is more than one image, left to previous and right to next; other keys do nothing |
| ImageModal.KeyPressKeepsIndex | roboaut/src/components/ImageModal.tsx:31-39 | a key press never moves a valid index out of range |
| ImageModal.Render | roboaut/src/components/ImageModal.tsx:53-140 | nothing renders when closed; the arrows, the 'i+1 of n' counter and the arrow hint show exactly with more than one image |
| Navbar.ShownAtTop | roboaut/src/components/Navbar.tsx:60-62 | a scroll to below 10 always shows the bar |
| Navbar.DirectionDecides | roboaut/src/components/Navbar.tsx:59-69 | moving down past 100 hides; moving up shows; an equal position or moving down within 10..100 keeps the visibility |
| Navbar.ScrollKeepsConsistent | roboaut/src/components/Navbar.tsx:59-70 | a hidden bar always has a remembered position past 100, and every scroll keeps this so |
| Navbar.ScrollUpShows | roboaut/src/components/Navbar.tsx:67-69 | any scroll back up shows a hidden bar |
| Navbar.Bar.constructor | roboaut/src/components/Navbar.tsx:6-13 | menu closed, 'Home' active, visible, last position 0 |
| Navbar.Bar.HandleScroll | roboaut/src/components/Navbar.tsx:56-71 | the visibility follows the scroll rule, the position is remembered, and nothing else changes |
| Navbar.Bar.ItemClick | roboaut/src/components/Navbar.tsx:25-29 | the clicked item becomes active and the mobile menu closes |
| Navbar.Bar.ToggleMenu | roboaut/src/components/Navbar.tsx:153 | the menu button flips the menu |
| Navbar.Bar.OverlayClick | roboaut/src/components/Navbar.tsx:226 | an overlay click closes the menu |

## Left out

- The network: the Brevo client and its API key, and every `fetch` to the CMS. Each request is an outcome value passed in (`ProviderOutcome`, `FetchOutcome`, `UploadOutcome`, `ListFetch`).
- Logging: every `console.log`/`console.error` call, including the one that prints the API key.
- Locale date formatting: the e-mail's date is a string parameter.
- Real timers: the 2- and 5-second `setTimeout` callbacks are explicit methods, so their delay is not modelled.
- Email.Confirmation: the template's long inline CSS is abbreviated to a fixed placeholder, its six HTML comments (`<!-- Header -->` and the like) are dropped, and so is the leading newline and indentation whitespace of every line. The lemmas are stated for any layout of fixed fragments, so they do not depend on that text; the exact bytes of the sent HTML are not modelled.
- Text.ToLower: lower-cases ASCII letters only. JavaScript's Unicode case mapping of other letters is not modelled.
- Webhook.Run: an entry field that is neither a string, `null` nor missing (a number, say) is treated as missing. For such a value the model renders "undefined" in the name, registration-number, e-mail and contact holes of the HTML; it shows "General Registration" in the event row; and it gives the recipient an empty name. JavaScript would show the value's own text in all six places.
- Email.SendTemplateEmail: a provider that throws `null` or `undefined` is not modelled. Reading `.message` of such a value would itself throw.
- Registration.UploadOutcome: an ok upload answer that is JSON `null` (so `fileData[0]` throws) counts as an upload that threw. Any other answer that is not a list gives a missing id, as in JavaScript.
- CMS values outside the declared types: a `null` team-member `Designation` (on which `toLowerCase` throws) and a `null` gallery collection (whose `Photos` read throws during flattening) are ruled out by the model's types, so those throws are not modelled.
- EventsPage.EventStatus: only the three declared statuses are modelled. The default branch of `getStatusColor` and CMS values outside the declared type are not.
- EventsSection.RegistrationStatus: uses exact integer arithmetic. Floating-point rounding right at the 70 and 90 percent boundaries is not modelled, nor is the progress-bar width.
- Navbar.Bar.HandleScroll: scroll positions are integers; fractional `scrollY` values are not modelled.
- Contact.FieldName and Registration.FieldName: only the named inputs exist. An input with another `name` would add a key to the form object, which the model does not represent.
- DOM work: the navbar's indicator offsets, clearing the file input, the alert text, event-listener registration and `body.style.overflow` in the lightbox.
- Animations, the home page's random particles, and the markup-only components and pages.
- `sendEmail.d.ts` holds type declarations only. It is used as the shape of `EmailResponse` and is not modelled.
