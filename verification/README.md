# Portfolio site: the decision rules behind the pages

This project is a Dafny model of the small pieces of logic in a personal
portfolio single-page site and its one serverless function. Everything
else in that repository is markup. The model covers five components.

- **Contact form** (`contact.dfy`, module `Contact`). The draft is three
  strings. Each input's `onChange` replaces one field. `handleSubmit`
  checks the draft in order: an empty field gives the "missing fields"
  toast, an email that fails `/^[^\s@]+@[^\s@]+\.[^\s@]+$/` gives the
  "invalid email" toast, and otherwise the success toast is shown and the
  draft is cleared. The regular expression is given its meaning as a split
  of the string into three `[^\s@]+` runs around one `@` and one `.`
  (`EmailRegexMatches`). The handler runs a computable test
  (`HasEmailShape`). A lemma proves the two agree on every string. `\s` is
  ECMAScript's set of white-space and line-terminator code points. The form
  is a class whose `toasts` field logs every toast shown, so "exactly one
  toast per submit" is part of `HandleSubmit`'s contract.
- **Contact relay** (`relay.dfy`, module `Relay`). `handler` is a pure
  function of the request, the API key, `JSON.parse` and the provider's
  `send`. The last two are function parameters. Its result pairs the
  response (status code and JSON object) with the message handed to `send`,
  if there was one. So "at most one send" and "no send on an early return"
  are properties of that result. The composed message's body text is
  proved readable back into name, email and message exactly when neither
  the name nor the email contains a line break.
- **Project gallery** (`projects.dfy`, module `Projects`). `allTags` is
  `"all"` followed by the tags, each once, in the order of their first
  occurrence. This is the order of insertion into a JavaScript `Set`.
  `filteredProjects` is either everything or, in the original order, exactly
  the projects that carry the selected tag, each as often as it occurs. A
  project tag spelled `"all"` would appear twice in the button row, and its
  button would show every project. The model states this faithfully and
  claims distinctness only after the leading `"all"`.
- **Language provider** (`language.dfy`, module `Language`). The browser
  language tag maps to `en` only when it starts with `"en"`, and to `es`
  otherwise. A stored value is used only if it is exactly `"es"` or `"en"`.
  The provider is a class with `localStorage` as a map field. The mount
  effect, the persist effect and `setLanguage` are methods. After mounting
  and after every change the stored value and the page language equal the
  current language.
- **Sidebar** (`sidebar.dfy`, module `Sidebar`). The scroll handler's
  backward loop makes the last section whose `offsetTop` is at most
  `scrollY + 100` active. When no section qualifies the active section
  stays. The loop is proved against a specification function. The mobile
  menu flag is flipped by the menu button, and cleared by the overlay and by
  navigating to a section that exists.

`text.dfy` (prefix test, occurrence count, first index, JavaScript
truthiness of an optional string) and `wrappers.dfy` (Option, Result) are
shared helpers.

The contact form makes no network request and has no "submitting" flag:
it shows the success toast directly. The relay answers a body that
`JSON.parse` rejects with 500 "Failed to send email", because the parse
happens inside the `try`.

## Model

| member | source | states |
|---|---|---|
| `Contact.WithField` | src/components/Contact.tsx:113-141 | the named field takes the new value and the other two fields keep theirs |
| `Contact.ContactForm.UpdateField` | src/components/Contact.tsx:113-141 | an input change replaces only that field of the draft and shows no toast |
| `Contact.ContactForm.constructor` | src/components/Contact.tsx:11-15 | the draft starts with all three fields empty and no toast shown |
| `Contact.EmailPatternCharacterization` | src/components/Contact.tsx:31 | the email pattern matches exactly the strings with no whitespace, exactly one `@`, something before it, and a `.` after it that is neither first nor last there |
| `Contact.Validate` | src/components/Contact.tsx:21-39 | missing fields exactly when some field is empty, so an empty email is never reported as invalid; invalid email exactly when all fields are filled and the email fails the pattern; success exactly when both checks pass |
| `Contact.ContactForm.HandleSubmit` | src/components/Contact.tsx:17-47 | each submit appends exactly one toast, the one of its verdict; the draft becomes empty on success and is unchanged otherwise |
| `Contact.ToastIdentifiesVerdict` | src/components/Contact.tsx:22-44 | the three toasts are pairwise different and only the success toast is not destructive |
| `Contact.AcceptedDraftExample` | src/components/Contact.tsx:30-46 | the draft Ana / ana@example.com / Hi is accepted |
| `Contact.RejectedDraftExamples` | src/components/Contact.tsx:21-39 | an address without `@` is reported invalid; an empty address is reported as a missing field |
| `Relay.Handle` | netlify/functions/send-email.ts:3-64 | the status is one of 200, 400, 405, 500; a message is sent exactly when the method is POST, body and key are present, the body parses and all three fields are non-empty; the sent message is the one composed from those fields; 200 with `{ok: true}` exactly when the single send was delivered |
| `Relay.NonPostRejected` | netlify/functions/send-email.ts:4-9 | any method other than POST gets 405 "Method Not Allowed" and nothing is sent |
| `Relay.EmptyBodyRejected` | netlify/functions/send-email.ts:11-16 | a POST with a null or empty body gets 400 "Body is required" and nothing is sent |
| `Relay.MissingKeyRejected` | netlify/functions/send-email.ts:19-25 | a missing or empty API key gets 500 with the missing-key message and nothing is sent, whatever the body would parse to |
| `Relay.MalformedBodyFails` | netlify/functions/send-email.ts:29-63 | a body that fails to parse gets 500 "Failed to send email" with the parser's message as details, and nothing is sent |
| `Relay.MissingFieldRejected` | netlify/functions/send-email.ts:31-36 | a parsed body with an absent or empty name, email or message gets 400 "Missing fields" and nothing is sent |
| `Relay.SendFailureReported` | netlify/functions/send-email.ts:46-62 | once every check has passed the message is sent; a delivery gives 200 and a provider error or a thrown error gives 500 "Failed to send email" with that error's message as details |
| `Relay.Compose` | netlify/functions/send-email.ts:38-44 | fixed sender and recipient, reply-to is the submitted email, the subject is "Nuevo mensaje de " followed by the name, and the body text reads back as (name, email, message) exactly when name and email have no line break |
| `Relay.ReadBodyTextInverts` | netlify/functions/send-email.ts:43 | reading the composed body text gives back the three fields exactly when neither name nor email contains a line break |
| `Projects.FlatTagsMembers` | src/components/Projects.tsx:14 | a tag is in the flattened tag list exactly when some project carries it |
| `Projects.Dedup` | src/components/Projects.tsx:14 | the deduplicated tags have the same members as the input, are pairwise distinct, and keep the order of first occurrence |
| `Projects.AllTags` | src/components/Projects.tsx:13-16 | the first tag is "all"; after it come exactly the tags some project carries, pairwise distinct, in the order of first occurrence |
| `Projects.Tagged` | src/components/Projects.tsx:20 | the result keeps the original order and holds each project carrying the tag as often as the input does, and no other project |
| `Projects.FilterProjects` | src/components/Projects.tsx:18-20 | filter "all" gives the list unchanged; any other filter gives, in order, exactly the projects carrying it; never longer than the list |
| `Projects.UncarriedFilterShowsNothing` | src/components/Projects.tsx:18-20 | a filter other than "all" that no project carries shows an empty list |
| `Projects.TagButtonsShowSomething` | src/components/Projects.tsx:13-20 | every tag button other than "all" shows at least one project |
| `Language.BrowserLanguageTag` | src/contexts/LanguageContext.tsx:21 | the tag is `navigator.language` if non-empty, else `userLanguage` if non-empty, else "es"; it is never empty |
| `Language.DetectLanguage` | src/contexts/LanguageContext.tsx:16-29 | English exactly when there is a window and the tag starts with "en"; a tag starting with "es", any other tag, or no window gives Spanish |
| `Language.ParseStored` | src/contexts/LanguageContext.tsx:38-40 | a saved value is used exactly when it is "es" or "en", and then as that language |
| `Language.StoredCodeRoundTrip` | src/contexts/LanguageContext.tsx:40-50 | the code written for a language reads back as that language |
| `Language.UseLanguage` | src/contexts/LanguageContext.tsx:84-92 | outside the provider the hook fails with its error message; inside it returns the provider's value |
| `Language.LanguageProvider.constructor` | src/contexts/LanguageContext.tsx:32-33 | the provider starts in Spanish, not initialised, with storage untouched |
| `Language.LanguageProvider.InitEffect` | src/contexts/LanguageContext.tsx:36-59 | a valid saved value becomes the language and storage is unchanged; otherwise the detected language is chosen and written; afterwards storage and page language equal the language |
| `Language.LanguageProvider.PersistEffect` | src/contexts/LanguageContext.tsx:62-67 | before initialisation nothing changes; afterwards storage and page language are set to the current language |
| `Language.LanguageProvider.SetLanguage` | src/contexts/LanguageContext.tsx:69-71 | only the language changes |
| `Language.LanguageProvider.Mount` | src/contexts/LanguageContext.tsx:36-67 | after mounting, the language is the valid saved one or else the detected one, and storage holds it |
| `Language.LanguageProvider.ChangeLanguage` | src/contexts/LanguageContext.tsx:62-71 | after a change the language is the new one and storage and page language equal it |
| `Language.LanguageProvider.Copy` | src/contexts/LanguageContext.tsx:73-78 | the copy is the current language's translation, the one the selector labels with that language |
| `Sidebar.LastReached` | src/components/Sidebar.tsx:37-46 | the largest index whose section exists and starts at or above `scrollY + 100`, with no later one qualifying, or -1 when none does |
| `Sidebar.Sidebar.constructor` | src/components/Sidebar.tsx:32-33 | the hero section is active and the mobile menu is closed |
| `Sidebar.Sidebar.HandleScroll` | src/components/Sidebar.tsx:36-47 | the active section becomes the last reached section, or stays when none is reached, and remains one of the seven navigation ids |
| `Sidebar.Sidebar.ScrollToSection` | src/components/Sidebar.tsx:60-66 | the mobile menu closes when the target exists; otherwise nothing changes |
| `Sidebar.Sidebar.ToggleMobileMenu` | src/components/Sidebar.tsx:74 | the menu button flips the mobile menu flag |
| `Sidebar.Sidebar.CloseMobileMenu` | src/components/Sidebar.tsx:83 | a click on the overlay closes the mobile menu |

## Left out

- The provider library, `JSON.parse` and the destructuring of its result are parameters of `Relay.Handle`. They are not implemented.
- JSON field values that are not strings (numbers, booleans, objects) are not modelled. A field is either a string or absent/null.
- `String(error)` for a thrown value that is not an `Error` is not modelled. The detail text arrives already converted.
- The relay's response bodies are JSON objects. `JSON.stringify` is not modelled.
- `console.error` logging in the relay is not modelled. Neither is the construction of the provider client, which cannot fail once a key is present.
- The DOM is reduced to a map from element id to `offsetTop`, standing for `document.getElementById`. `scrollIntoView` and the registration of the scroll listener are not modelled. The page's `lang` attribute is only the `documentLang` field.
- `handleDownload` in the sidebar builds a download link. It has no decision logic and is not modelled.
- Sidebar.Sidebar.HandleScroll: `window.scrollY` is a fractional number in the browser. The model uses whole numbers.
- The sidebar's collapse flag is a property owned by the parent component. It is not modelled.
- React's scheduling is not modelled: re-renders, memoisation and the stale closure of the first persist run. The effects are methods called in the order React runs them. The first persist run changes nothing before initialisation, so `Mount` runs the init effect and then the persist effect.
- Translation records keep only the language name and the "all" filter label. The rest of the copy is static text.
- The gallery's selected tag (`useState`, replaced on a button click) is the `filter` parameter of `Projects.FilterProjects`, not a field.
- Toast titles and descriptions are the literal strings of the handler. The toast's display and timing are not modelled.
- The browser's own check of the `type="email"` input is not modelled. Under the HTML standard it strips line breaks and surrounding whitespace, and it blocks the submit event for a value such as "not-an-email". So in a browser the invalid-email toast appears only for values that pass that check but fail the pattern, such as "a@b". `Contact.ContactForm.HandleSubmit` models the handler as if it were always reached.
