# Contact form and interactive sections of the CHS site, in Dafny

This project models the parts of the Chatusthya Health Services website that
have behaviour beyond markup, and proves properties of each part.

- **Contact-form schema** (`validation.dfy`, module `Validation`). Each of
  the six fields has its own rule. The model lists a field's failing checks
  in the order the schema writes them. The form resolver shows the first
  one. JavaScript's `.length` counts UTF-16 code units (`JsString.Utf16Length`).
  `\s` is the exact ECMAScript whitespace and line-terminator set. The email
  syntax check is a parameter `isEmail`.
- **Submission dispatcher** (`contact.dfy`, module `ContactUs`). It builds the
  messaging text, the messaging link and the relay's template record.
  `ContactForm` is a class holding the component's state: the channel toggle,
  the status banner, `isSubmitting`, the form values, the field messages, the
  relay request in flight, the pending status-reset timers and the links
  opened.
- **`encodeURIComponent` / `decodeURIComponent`** (`uri.dfy`, module
  `UriComponent`). The encoder applies UTF-8 and then percent-encoding with
  upper-case hex, leaving the unreserved set `A-Z a-z 0-9 - _ . ! ~ * ' ( )`
  alone. The decoder follows the Decode algorithm of ECMA-262, with malformed
  input giving `None`.
- **Gallery** (`gallery.dfy`). Pages of three items use JavaScript's clamping
  `slice`. Cyclic stepping covers both images and pages. `GalleryState` holds
  the lightbox, the selected index and the current page.
- **About-us carousel** (`carousel.dfy`). A four-row panel table and a cyclic
  "next" step. `Carousel` holds the current panel, the loading lock and the
  queue of scheduled switches.
- **Navbar** (`navbar.dfy`). A scroll-spy scan written as a loop, the
  scrolled flag, and the link highlight. The mobile menu filter drops Home.
  `NavbarState` holds the menu's open flag.
- **Services accordion** (`services.dfy`). At most one card is expanded, and
  every icon key resolves in the icon map.
- **Clients** (`clients.dfy`). Initials, the one-sentence preview and the
  modal's paragraph layout. `ClientModal` holds the selected client.
- **Shared pieces:**
  - `jsstring.dfy` has `split`, `join`, `trim`, `startsWith` and `.length` as
    JavaScript defines them.
  - `content.dfy` has the static tables of `lib/constants.tsx`.
  - `wrappers.dfy` has `Option` and `Result`.

Each class's methods state the whole new state in terms of the old one. The
properties the site relies on are proved about the pure functions those
methods use. Short walkthrough methods (`EmailWalkthrough`,
`WhatsAppWalkthrough`, `RejectedWalkthrough`, `BrowseWalkthrough`,
`CycleWalkthrough`, `ScrollWalkthrough`, `AccordionWalkthrough`,
`ModalWalkthrough`) drive each class through the scenarios the site
describes. They prove the intermediate states with assertions.

Three points where a reader might expect other behaviour:

- **Channel toggle.** The channel is chosen by the component's own toggle
  state, not by the submission's `contactMethod` field. The form's
  `contactMethod` value is never edited and stays `email`.
- **Link separator.** The messaging service reads the text from a `?text=`
  query parameter, but the code writes `&text=` after a base URL that has no
  query part (see Findings).
- **Items per page.** A comment over the gallery grid
  (components/Gallery.tsx:115) says four items per page. The constant
  (line 8) is 3, and the model uses 3.

## Model

| member | source | states |
|---|---|---|
| Validation.ParseContactMethod | lib/validations.ts:28 | the enum accepts exactly `email` and `whatsapp`; any other value fails with zod's enum message naming the value |
| Validation.Validate | lib/validations.ts:4-29 | success exactly when no field fails a check; the record then carries the typed values; on failure a field is flagged exactly when it fails some check, and its message is the first failing check's |
| Validation.FieldErrors | lib/validations.ts:4-29 | the error map has an entry for a field exactly when that field fails some check, and the entry is the message of its first failing check |
| Validation.NameIssues | lib/validations.ts:5-13 | the failed checks of `.min(2).max(50).regex(...)` in written order; its properties are in NameRule and NameIssuesOrder |
| Validation.EmailIssues | lib/validations.ts:15-17 | the failed checks of `.email().max(100)` in written order; its properties are in EmailFirstFailingCheck |
| Validation.MobileIssues | lib/validations.ts:19-21 | no failure when either alternative matches, otherwise only the first alternative's failure, as a zod union reports it; its properties are in MobileRule and MobileReportedMessage |
| Validation.MessageIssues | lib/validations.ts:23-26 | the failed checks of `.min(10).max(1000).regex(...)` in written order; its properties are in MessageRule and MessageIssuesOrder |
| Validation.Issues | lib/validations.ts:4-29 | each field's failed checks, taken from that field's value only; its properties are in FieldRules and IssuesDependOnOwnField |
| Validation.ErrorIsFirstIssue | lib/validations.ts:4-29 | the message the result shows for any field is the first of that field's failing checks, or none |
| Validation.FirstNameError | lib/validations.ts:5-8 | the first name's message is the first of its own failing checks |
| Validation.LastNameError | lib/validations.ts:10-13 | the last name's message is the first of its own failing checks |
| Validation.EmailError | lib/validations.ts:15-17 | the email's message is the first of its own failing checks |
| Validation.MobileError | lib/validations.ts:19-21 | the mobile number's message is the first of its own failing checks |
| Validation.MessageError | lib/validations.ts:23-26 | the message field's message is the first of its own failing checks |
| Validation.FieldRules | lib/validations.ts:4-29 | each field fails no check exactly when it satisfies its own rule |
| Validation.NameIssuesOrder | lib/validations.ts:5-13 | a name's first failing check is too-short below 2 code units, too-long above 50, the character check otherwise when a character is outside the class, and none for an acceptable name |
| Validation.MessageIssuesOrder | lib/validations.ts:23-26 | the message's first failing check is too-short below 10 code units, too-long above 1000, the character check otherwise when a character is outside the class, and none for an acceptable message |
| Validation.NameRule | lib/validations.ts:5-13 | a name fails no check exactly when it has 2 to 50 characters, all from `[a-zA-Z\s'-]` |
| Validation.MessageRule | lib/validations.ts:23-26 | a message fails no check exactly when it has 10 to 1000 characters, all letters, digits, whitespace or `. , ! ? ' -` |
| Validation.MobileRule | lib/validations.ts:19-21 | the union fails nothing exactly when the value is ten ASCII digits, or `+91` followed by ten ASCII digits |
| Validation.PatternLength | lib/validations.ts:6-8 | a value matching the name or message class has `.length` equal to its number of characters |
| Validation.ValidateAcceptsIffEveryFieldOk | lib/validations.ts:4-29 | the record is accepted exactly when each field satisfies its own rule |
| Validation.IssuesDependOnOwnField | lib/validations.ts:4-29 | a field's failures depend on that field's value alone |
| Validation.FieldIndependence | lib/validations.ts:4-29 | whether a field is flagged, and with which message, is unchanged by any other field's value |
| Validation.NameFirstFailingCheck | lib/validations.ts:5-8 | a first name that is too short shows the too-short message, one that is too long shows the too-long message, one of valid length with a bad character shows the character message, and an acceptable one shows none |
| Validation.LastNameFirstFailingCheck | lib/validations.ts:10-13 | the same order for the last name |
| Validation.MessageFirstFailingCheck | lib/validations.ts:23-26 | the same order (min, max, regex) for the message |
| Validation.EmailFirstFailingCheck | lib/validations.ts:15-17 | a malformed address shows the syntax message; a well-formed one over 100 code units shows the length message; no message exactly when both checks pass |
| Validation.MobileReportedMessage | lib/validations.ts:19-21 | a rejected number shows the first alternative's message; an accepted one shows none |
| Validation.NameLengthBoundaries | lib/validations.ts:6-7 | with acceptable characters, 2 and 50 characters pass and 1 and 51 fail |
| Validation.MessageLengthBoundaries | lib/validations.ts:24-25 | with acceptable characters, 10 and 1000 pass and 9 and 1001 fail |
| Validation.MobileRejections | lib/validations.ts:19-21 | nine or eleven digits, `91` plus ten digits without `+`, and anything containing a space are rejected |
| Validation.OneCharacterFirstName | lib/validations.ts:6 | `"J"` and `"1"` as first names are reported too short |
| JsString.Utf16Length | lib/validations.ts:6-7 | JavaScript's `.length`, one unit per Basic Multilingual Plane character and two per other character; its properties are in Utf16LengthBounds and Validation.PatternLength |
| JsString.Utf16LengthBounds | lib/validations.ts:6-7 | `.length` lies between the character count and twice it, and equals the count exactly when every character is in the Basic Multilingual Plane |
| JsString.Split | components/Clients.tsx:92 | `split` on one character yields at least one piece; the pieces joined with the separator give back the string; no piece contains the separator; a string without it is one piece |
| JsString.SplitHead | components/Clients.tsx:103 | the first piece is a prefix of the string, followed by the separator when it is shorter than the string |
| JsString.TrimStart | components/Clients.tsx:165 | the result is a suffix of the input without leading whitespace, and what was removed is all whitespace |
| JsString.TrimEnd | components/Clients.tsx:165 | the result is a prefix of the input without trailing whitespace, and what was removed is all whitespace |
| JsString.Trim | components/Clients.tsx:165 | `trim()` as TrimEnd after TrimStart; its properties are in TrimSpec and TrimEmptyIffBlank |
| JsString.TrimSpec | components/Clients.tsx:165 | `trim()` is a contiguous piece of the input with blank text on both sides, and it neither starts nor ends with whitespace |
| JsString.TrimEmptyIffBlank | components/Clients.tsx:158 | `trim()` is empty exactly when the input is all whitespace |
| UriComponent.Encode | components/ContactUs.tsx:52 | `encodeURIComponent`: unreserved characters kept, every other character as the `%XY` escapes of its UTF-8 bytes; its properties are in EncodeAlphabet, EncodeUnreservedIdentity, DecodeEncode and EncodeInjective |
| UriComponent.Decode | components/ContactUs.tsx:52 | `decodeURIComponent`, with `None` where it would throw; its property is DecodeEncode |
| UriComponent.Utf8RoundTrip | components/ContactUs.tsx:52 | a character's UTF-8 bytes have the length their lead byte announces and decode back to that character |
| UriComponent.Utf8RoundTrip2 | components/ContactUs.tsx:52 | a character from U+0080 to U+07FF encodes as two bytes `C0+x/64`, `80+x%64`, which decode back to it |
| UriComponent.Utf8RoundTrip3 | components/ContactUs.tsx:52 | a three-byte character encodes with lead byte `E0+x/4096` and two continuation bytes, which decode back to it |
| UriComponent.Utf8RoundTrip4 | components/ContactUs.tsx:52 | a four-byte character encodes with lead byte `F0+x/262144` and three continuation bytes, which decode back to it |
| UriComponent.HexRoundTrip | components/ContactUs.tsx:52 | each hex digit written by the encoder reads back as its value |
| UriComponent.ReadEscapeRoundTrip | components/ContactUs.tsx:52 | a byte's `%XY` escape reads back as that byte, whatever follows |
| UriComponent.ReadEscapesRoundTrip | components/ContactUs.tsx:52 | reading `n` escapes back from the escapes of `n` bytes gives those bytes, whatever follows |
| UriComponent.EncodeAlphabet | components/ContactUs.tsx:52 | the encoding consists only of unreserved characters and `%` |
| UriComponent.EncodeUnreservedIdentity | components/ContactUs.tsx:52 | a string of unreserved characters encodes to itself |
| UriComponent.DecodeEscapedChar | components/ContactUs.tsx:52 | the escapes of one character's UTF-8 bytes decode to that character, followed by the decoding of what comes after |
| UriComponent.DecodeEncodeChar | components/ContactUs.tsx:52 | decoding one encoded character followed by more text gives the character followed by the decoding of the rest, and fails exactly when the rest fails |
| UriComponent.DecodeEncode | components/ContactUs.tsx:52 | decoding the encoding of any string gives that string |
| UriComponent.EncodeInjective | components/ContactUs.tsx:52 | different strings have different encodings |
| ContactUs.WhatsAppText | components/ContactUs.tsx:51 | the fixed template `Name: F L`, `Email:`, `Phone:` and, after a blank line, `Message:`; its properties are in ChannelsCarrySameContent and WhatsAppLinkRoundTrip |
| ContactUs.WhatsAppLink | components/ContactUs.tsx:52 | the base URL, `&text=`, then the encoded text, as written; its properties are in WhatsAppLinkRoundTrip and WhatsAppLinkHasNoQuery |
| ContactUs.TemplateParamsFor | components/ContactUs.tsx:60-66 | the relay record goes to the company address, names the sender as first and last name joined by a space, and copies the email, phone and message unchanged |
| ContactUs.ChannelsCarrySameContent | components/ContactUs.tsx:51-66 | the messaging text is laid out from exactly the values the relay record carries |
| ContactUs.WhatsAppLinkRoundTrip | components/ContactUs.tsx:51-52 | the link is the base URL, `&text=`, then a part that decodes to the message text exactly |
| ContactUs.WhatsAppLinkDeterminesText | components/ContactUs.tsx:52 | two equal links carry the same message text |
| ContactUs.BaseUrlPlain | lib/constants.tsx:243 | the messaging base URL contains neither `?` nor `&` |
| ContactUs.EncodeHasNoDelimiters | components/ContactUs.tsx:52 | the encoded text contains no `?`, `&` or `=` |
| ContactUs.TextParamOf | components/ContactUs.tsx:52 | after a base without `?`, appending `?text=` and an encoding free of delimiters gives a query whose `text` parameter is exactly that encoding |
| ContactUs.WhatsAppLinkHasNoQuery | components/ContactUs.tsx:52 | as written, the link contains no `?`, so it has no query part and no `text` parameter |
| ContactUs.CorrectedLinkCarriesText | components/ContactUs.tsx:52 | with `?text=`, the link's query is `text=` plus the encoding, and its `text` parameter decodes to the message text |
| ContactUs.SampleAccepted | lib/validations.ts:4-29 | the sample inputs (John Doe, 9876543210, "Hello, I need training info.") are accepted and typed as the email channel's record |
| ContactUs.ContactForm.constructor | components/ContactUs.tsx:28-41 | initial state: email channel, idle status, not submitting, default values, no messages, nothing in flight, no timers, no links, no submit attempt yet |
| ContactUs.ContactForm.SubmitDisabled | components/ContactUs.tsx:369 | the submit button is disabled exactly while submitting; Submit's contract makes a disabled submit change nothing |
| ContactUs.ContactForm.SelectChannel | components/ContactUs.tsx:226-236 | the toggle changes the channel and nothing else |
| ContactUs.ContactForm.Edit | components/ContactUs.tsx:255-341 | typing sets one input's value and leaves the other values unchanged; before any submit attempt the messages are unchanged, after one the edited field's message becomes its first failing check's, or is removed when it passes; no other field's message and no other state changes |
| ContactUs.ContactForm.Submit | components/ContactUs.tsx:44-82 | disabled while submitting; rejected values only set the field messages and mark the attempt; accepted values on the messaging channel open the link, succeed, reset the form, schedule a reset and mark the attempt; accepted values on the email channel go in flight with their template record |
| ContactUs.ContactForm.RelayOutcome | components/ContactUs.tsx:79-88 | delivery succeeds and clears the values and messages; failure shows the error and keeps both; either way a reset is scheduled, submitting ends and the attempt is marked |
| ContactUs.ContactForm.ResetTimerFires | components/ContactUs.tsx:56 | a scheduled reset returns the banner to idle and changes nothing else |
| ContactUs.SubmitSampleByEmail | components/ContactUs.tsx:44-66 | submitting the sample on the email channel starts submitting with the relay record for John Doe in flight, shows no messages and keeps the values |
| Gallery.TotalPages | components/Gallery.tsx:18 | the page count is the fewest pages of three holding all items |
| Gallery.GalleryHasTwoPages | components/Gallery.tsx:18 | the site's five items make two pages |
| Gallery.PageItems | components/Gallery.tsx:19-22 | an existing page is the contiguous run from `page*3` of `min(3, n - page*3)` items, at least one; a page past the end is empty |
| Gallery.FirstPagesPrefix | components/Gallery.tsx:19-22 | the first `k` pages laid end to end are the first `3k` items |
| Gallery.PagesPartitionItems | components/Gallery.tsx:19-22 | all pages laid end to end are exactly the items, in order |
| Gallery.PagePosition | components/Gallery.tsx:19-22 | position `i` of page `p` is item `p*3 + i` of the list |
| Gallery.Succ | components/Gallery.tsx:76-78 | the next position is always in range |
| Gallery.Pred | components/Gallery.tsx:80-84 | the previous position of an in-range position is in range |
| Gallery.SuccPredInverse | components/Gallery.tsx:76-92 | next then previous, and previous then next, return to the start |
| Gallery.SuccPredSteps | components/Gallery.tsx:76-92 | steps move by one and wrap at the ends |
| Gallery.GridSelection | components/Gallery.tsx:132 | the index a grid click stores, `page*3 + i`, as written; its property is in GridSelectionInRangeIffFirstPage |
| Gallery.LightboxItem | components/Gallery.tsx:262-275 | the item at position `index` of the current page, or none past its end; its properties are in GridSelectionInRangeIffFirstPage and LocalSelectionShowsClickedItem |
| Gallery.GridSelectionInRangeIffFirstPage | components/Gallery.tsx:132 | as written, the index a click stores is inside the page the lightbox reads exactly when the page is the first |
| Gallery.SecondPageClickShowsNothing | components/Gallery.tsx:132 | on the site's data, the first card of page two stores 3 while that page has two items, so the lightbox has no item |
| Gallery.LocalSelectionShowsClickedItem | components/Gallery.tsx:262-275 | storing the page position, the lightbox shows the clicked item on every page, which is also item `p*3 + i` of the list |
| Gallery.GalleryState.constructor | components/Gallery.tsx:12-14 | lightbox closed, index 0, page 0 |
| Gallery.GalleryState.DisplayItems | components/Gallery.tsx:19-22 | `displayItems`: PageItems of the current page; its properties are in PageItems and PagesPartitionItems |
| Gallery.GalleryState.Shown | components/Gallery.tsx:262-275 | the item the lightbox shows, LightboxItem of the stored index on the current page; GridClick states when it exists |
| Gallery.GalleryState.NextImage | components/Gallery.tsx:76-78 | one cyclic step forward within the page; the index ends in range |
| Gallery.GalleryState.PreviousImage | components/Gallery.tsx:80-84 | one cyclic step back; an in-range index stays in range |
| Gallery.GalleryState.NextPage | components/Gallery.tsx:86-88 | the page steps forward cyclically and stays a page |
| Gallery.GalleryState.PreviousPage | components/Gallery.tsx:90-92 | the page steps back cyclically and stays a page |
| Gallery.GalleryState.PageClick | components/Gallery.tsx:94-96 | page button `i` selects page `i` |
| Gallery.GalleryState.GridClick | components/Gallery.tsx:131-134 | opens the lightbox with the list position stored; an item is shown exactly when on the first page |
| Gallery.GalleryState.Close | components/Gallery.tsx:251 | closes the lightbox, keeping index and page |
| Gallery.GalleryState.KeyDown | components/Gallery.tsx:44-54 | keys do nothing while the lightbox is closed; Escape closes it; the left and right arrows step back and forward |
| AboutUsCarousel.FindIndex | components/AboutUsCarousel.tsx:203 | `findIndex` gives the first row with the id, or -1 when no row has it |
| AboutUsCarousel.FindIndexOfRow | components/AboutUsCarousel.tsx:177-198 | the table's ids are distinct: row `i`'s id is found at `i` |
| AboutUsCarousel.NextPanel | components/AboutUsCarousel.tsx:203-205 | the id of the row after the current one, wrapping after the last; its properties are in NextIsFollowingEntry, NextOfRow and FourAdvancesReturn |
| AboutUsCarousel.NextIsFollowingEntry | components/AboutUsCarousel.tsx:203-205 | next from row `i` is row `(i+1) mod 4` |
| AboutUsCarousel.NextOfRow | components/AboutUsCarousel.tsx:203-205 | when rows `i` and `(i+1) mod 4` hold `p` and `q`, next from `p` is `q` |
| AboutUsCarousel.NextPanelCycle | components/AboutUsCarousel.tsx:177-205 | leadership, what-we-do, why-choose-us, core-values, then leadership again |
| AboutUsCarousel.FourAdvancesReturn | components/AboutUsCarousel.tsx:200-208 | four steps return to the start and fewer never do |
| AboutUsCarousel.CurrentLabel | components/AboutUsCarousel.tsx:218 | the heading is the current row's label, or empty when no row matches |
| AboutUsCarousel.EveryPanelHasHeading | components/AboutUsCarousel.tsx:218 | every panel has a row, so the heading is never empty |
| AboutUsCarousel.Shown | components/AboutUsCarousel.tsx:296-307 | a panel is not hidden exactly when it is in the table and current |
| AboutUsCarousel.ExactlyCurrentShown | components/AboutUsCarousel.tsx:296-307 | exactly one panel is shown: the current one |
| AboutUsCarousel.Carousel.PanelVisible | components/AboutUsCarousel.tsx:181-196 | the `isVisible` prop of panel `p`: the section has been revealed and `p` is current; its property is in VisiblePanel |
| AboutUsCarousel.VisiblePanel | components/AboutUsCarousel.tsx:181-196 | a panel is visible exactly when the section is revealed and it is the one shown panel, so no panel is visible before the reveal and at most one after |
| AboutUsCarousel.Carousel.SingleSwitch | components/AboutUsCarousel.tsx:200-208 | at most one switch is scheduled, and one is exactly while loading; NextPressed and TimerFires preserve it |
| AboutUsCarousel.Carousel.constructor | components/AboutUsCarousel.tsx:155-156 | starts on leadership, not loading, nothing scheduled |
| AboutUsCarousel.Carousel.NextPressed | components/AboutUsCarousel.tsx:200-208 | ignored while loading; otherwise locks and schedules the switch to the panel after the current one; keeps at most one switch scheduled |
| AboutUsCarousel.Carousel.ComponentClick | components/AboutUsCarousel.tsx:210-216 | locks and schedules the switch to exactly the given panel (the handler is defined but nothing in the component calls it) |
| AboutUsCarousel.Carousel.TimerFires | components/AboutUsCarousel.tsx:202-207 | the oldest scheduled target becomes current and the lock is released |
| Navbar.LastReached | components/Navbar.tsx:39-43 | the result is -1 or a row whose offset has been reached, and no later row has been reached |
| Navbar.ActiveId | components/Navbar.tsx:28-45 | the id of the last reached row, or `home` when none is reached; its properties are in LastReached, LastReachedMonotone and ActiveIdIsSection |
| Navbar.ScanActiveSection | components/Navbar.tsx:28-45 | the scan's result is the id of the last reached row, or `home` |
| Navbar.LastReachedMonotone | components/Navbar.tsx:39-43 | a larger scroll position never selects an earlier row |
| Navbar.SectionsAscending | components/Navbar.tsx:29-34 | the table's offsets ascend |
| Navbar.BandSelectsRow | components/Navbar.tsx:29-43 | on an ascending table, row `i` is selected for every position in `[offset_i, offset_i+1)` |
| Navbar.SiteBands | components/Navbar.tsx:29-43 | below 500 gives home, 500–1199 what-we-do, 1200–1799 why-choose-us, 1800 and above about |
| Navbar.ActiveIdIsSection | components/Navbar.tsx:29-45 | the scroll-spy always names one of the table's ids |
| Navbar.RemoveFirst | components/Navbar.tsx:95 | `replace('#', '')` with a one-character pattern; its properties are in RemoveFirstAbsent and RemoveFirstDropsFirst |
| Navbar.Highlighted | components/Navbar.tsx:95 | a desktop link is highlighted exactly when the active section equals its href without the first `#`; its property is in OnlyHomeOrAboutHighlighted |
| Navbar.RemoveFirstAbsent | components/Navbar.tsx:95 | `replace('#', '')` leaves a string without `#` unchanged |
| Navbar.RemoveFirstDropsFirst | components/Navbar.tsx:95 | `replace('#', '')` removes exactly the first `#` |
| Navbar.LinkTargets | components/Navbar.tsx:95 | the five hrefs without `#` are home, about, services, gallery, clients |
| Navbar.OnlyHomeOrAboutHighlighted | components/Navbar.tsx:95 | a link is highlighted exactly when it is Home below 500 or About Us from 1800 on; no other link is ever highlighted |
| Navbar.MobileLinks | components/Navbar.tsx:142 | the mobile menu holds exactly the links not labelled Home |
| Navbar.MobileLinksKeepOrder | components/Navbar.tsx:142 | filtering a concatenation filters each part, so order is kept |
| Navbar.MobileLinksWithoutHome | components/Navbar.tsx:142 | a list without Home passes through unchanged |
| Navbar.MobileLinksDropLeadingHome | components/Navbar.tsx:142 | a list whose only Home link is its first entry loses exactly that entry |
| Navbar.SiteMobileLinks | components/Navbar.tsx:142 | the mobile menu is the four links after Home, in order |
| Navbar.NavbarState.constructor | components/Navbar.tsx:14-16 | closed, not scrolled, home |
| Navbar.NavbarState.OnScroll | components/Navbar.tsx:19-45 | scrolled exactly when the position exceeds 50; the active section is the scan's result; the menu is unchanged |
| Navbar.NavbarState.ToggleMenu | components/Navbar.tsx:130 | the menu flips |
| Navbar.NavbarState.LinkChosen | components/Navbar.tsx:52-54 | choosing a link or the mobile contact button closes the menu |
| Navbar.NavbarState.LinkHighlighted | components/Navbar.tsx:95 | Highlighted for the bar's active section; its property is in OnlyHomeOrAboutHighlighted |
| Services.IconFor | components/Services.tsx:58 | a key resolves exactly when it is `Stethoscope` or `CheckCircle` |
| Services.ServiceIcons | lib/constants.tsx:142-185 | the three offerings' icon keys are Stethoscope, CheckCircle, Stethoscope |
| Services.EveryServiceIconResolves | components/Services.tsx:58 | every offering's icon key is in the map |
| Services.Toggle | components/Services.tsx:81 | clicking the expanded card gives no card; clicking any other gives that card |
| Services.ToggleTwice | components/Services.tsx:81 | a card clicked twice from collapsed ends collapsed, three times expanded |
| Services.ExpandedCards | components/Services.tsx:59 | at most one card is expanded, and it is the stored index when that index names a card |
| Services.Accordion.constructor | components/Services.tsx:14 | card 0 starts expanded, alone |
| Services.Accordion.Click | components/Services.tsx:81 | card `i` flips between expanded and collapsed; at most one card stays expanded |
| Services.Accordion.IsExpanded | components/Services.tsx:59 | `isExpanded` for card `i`: the stored index is `i`; its properties are in ExpandedCards and Accordion.Click |
| Clients.Initials | components/Clients.tsx:92 | the first characters of the first two space-separated words, joined; its properties are in InitialsShape, OneWordInitial and TwoWordInitials |
| Clients.FirstChar | components/Clients.tsx:92 | a word's initial is its first character, or nothing for an empty word |
| Clients.InitialsShape | components/Clients.tsx:92 | at most two initials, none a space, each a character of the name |
| Clients.OneWordInitial | components/Clients.tsx:92 | a name without spaces gives its first character |
| Clients.TwoWordInitials | components/Clients.tsx:92 | a name starting with two words gives the first characters of those words |
| Clients.SiteInitials | components/Clients.tsx:92 | "DRFHE" gives "D" and "District Women Health" gives "DW" |
| Clients.Preview | components/Clients.tsx:103 | the first piece of `split('.')` with a period appended; its property is in PreviewIsFirstSentence |
| Clients.PreviewIsFirstSentence | components/Clients.tsx:103 | the preview is the description up to and including its first period, or the whole description plus a period when it has none |
| Clients.LayLine | components/Clients.tsx:158-177 | one line: none when blank, a bullet of the trimmed rest after a leading `•`, otherwise the line verbatim; its properties are in LayLineDropsExactlyBlank, BulletText and PlainText |
| Clients.LayLines | components/Clients.tsx:157-179 | the laid-out lines in order, with blank ones dropped; its properties are in LayLinesKeepOrder and OneParagraphPerNonBlankLine |
| Clients.Paragraphs | components/Clients.tsx:157-179 | the description split on line breaks and laid out line by line; its properties are in OneParagraphPerNonBlankLine and SingleLineDescription |
| Clients.LayLineDropsExactlyBlank | components/Clients.tsx:158 | a line produces no paragraph exactly when it is all whitespace |
| Clients.BulletText | components/Clients.tsx:160-165 | a bullet comes from a line starting with `•`; its text is a piece of the rest of the line with blank surroundings and no whitespace at either end |
| Clients.PlainText | components/Clients.tsx:171-177 | a plain paragraph is its line verbatim, non-blank and not starting with `•` |
| Clients.LayLinesKeepOrder | components/Clients.tsx:157 | laying out a concatenation lays out each part, so paragraphs keep the line order |
| Clients.NonBlank | components/Clients.tsx:158 | the kept lines are all non-blank |
| Clients.OneParagraphPerNonBlankLine | components/Clients.tsx:157-179 | there is one paragraph per non-blank line, the `k`-th laid out from the `k`-th such line |
| Clients.SingleLineDescription | components/Clients.tsx:157-179 | a non-blank description without line breaks gives one paragraph, plain when it does not start with `•` |
| Clients.LoneMarkIsEmptyBullet | components/Clients.tsx:160-165 | a line that is only `•` gives a bullet with empty text |
| Clients.IndentedMarkIsPlain | components/Clients.tsx:160 | a `•` after leading space is not a bullet; the line is kept verbatim |
| Clients.ClientModal.constructor | components/Clients.tsx:9 | no client selected |
| Clients.ClientModal.Select | components/Clients.tsx:81 | a card click selects that client |
| Clients.ClientModal.Dismiss | components/Clients.tsx:127-134 | the backdrop and the close button (and the call-to-action link, line 186) clear the selection |
| Clients.ClientModal.KeyDown | components/Clients.tsx:32-36 | Escape clears the selection; other keys change nothing |

## Left out

- Rendering is out: JSX markup, CSS classes, animations and transition
  delays, and image components. They are presentational.
- Browser events are out. The reveal observers (IntersectionObserver), the
  registration of window listeners and `document.body.style.overflow` are not
  modelled. Their effects enter as events: a scroll position, a key, a click.
  AboutUsCarousel.Carousel.PanelVisible takes the section's reveal flag as a
  parameter instead of observing it.
- zod's email regular expression is an uninterpreted parameter `isEmail`.
- react-hook-form and zodResolver are modelled only by what they do here:
  - submit runs only on accepted values;
  - each field shows its first message;
  - after the first completed submit attempt, each change re-checks the
    changed field and updates only its message;
  - a rejected mobile union shows its first alternative's message;
  - `reset()` restores empty inputs.

  The library's difference between `undefined` and `""` after a reset is not
  modelled.
- ContactUs.ContactForm.RelayOutcome: the relay is only simulated in the
  code, by a one-second wait that always succeeds (components/ContactUs.tsx:68-77).
  The model makes the outcome a parameter so the error branch is covered.
  The wait, the relay's service identifiers, `console.error` and
  `window.open` are left out; opened links are recorded in `openedLinks`.
- Timer durations (3000 ms and 2000 ms) are not modelled; timers are explicit
  events. ContactUs.ContactForm.ResetTimerFires counts pending resets but
  does not order them. Each reset only sets the banner to idle, so the order
  does not matter.
- AboutUsCarousel.Carousel.ComponentClick: `handleComponentClick`
  (components/AboutUsCarousel.tsx:210-216) is defined but nothing in the
  component calls it. It is modelled anyway, as an event no control raises.
- The unused `openLightbox` in components/Gallery.tsx:67-74 is left out. Its
  two-second loading overlay goes with it. Nothing calls it.
- Gallery.Succ: requires at least one position. With no gallery items the
  code would compute `% 0` (NaN); the site has five items.
- Clients.Initials: `w[0]` is a UTF-16 code unit, so a name starting with a
  character outside the Basic Multilingual Plane yields half a surrogate
  pair. A Dafny character cannot be a lone surrogate, so the model takes the
  whole character there.
- Navbar.NavbarState.OnScroll: the scroll position is an integer. Negative
  positions are covered, fractional pixel positions are not.
- The about-us description's paragraph split (components/AboutUsCarousel.tsx:247)
  is static text layout and is not modelled.
- Some components are not part of this model: Hero, Footer, AboutUs,
  WhatWeDo, WhyChooseUs, and the app layout and page. They hold static
  markup and composition; Footer's only logic is a `scrollY > 500` test.
- ContactUs.WhatsAppLinkRoundTrip: the decoded text is not parsed back
  into the name, email, phone and message. The model proves that the part after `&text=` decodes to exactly the laid-out text,
  and that equal links carry equal text. It does not parse the fields back
  out of the text: a name or message may itself contain line breaks and
  labels, so the layout is not uniquely parseable. The link as written has no
  query part (see Findings), so the round trip is stated on the raw part after
  `&text=`.
- The desktop contact button scrolls the page and changes no state, so it is
  not modelled.

## Findings

| source | as written | input that shows it | evidently intended | confidence | as-written member | corrected member |
|---|---|---|---|---|---|---|
| components/ContactUs.tsx:52 | the link is `WHATSAPP_URL + "&text=" + encoded text`, and `WHATSAPP_URL` (lib/constants.tsx:243) has no `?`, so the text sits in the path and the link has no query part | any accepted submission on the messaging channel, e.g. John Doe's sample: the link starts `https://wa.me/919112401267&text=Name%3A%20John...` and has no `text` parameter | `?text=`, so the messaging service receives the text as its `text` query parameter | not executed | ContactUs.WhatsAppLinkHasNoQuery | ContactUs.CorrectedLinkCarriesText |
| components/Gallery.tsx:132 | a grid click stores `currentPage * 3 + index`, but the lightbox reads `displayItems[selectedIndex]` (lines 262-263, 275), a position within the current page | page 2 (currentPage 1), first card: the stored index is 3, while the page holds items 4 and 5 only, so `displayItems[3]` is undefined and reading `.image` fails | store the page position `index`, which is what the lightbox and its next/previous buttons use | not executed | Gallery.GridSelectionInRangeIffFirstPage | Gallery.LocalSelectionShowsClickedItem |

The two state classes (`ContactUs.ContactForm` and `Gallery.GalleryState`)
follow the code as written, so these discrepancies stay visible in their
contracts. For example, `GridClick` promises a shown item only on the first
page. The corrected definitions are proved beside them.
