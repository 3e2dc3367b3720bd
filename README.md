# Portfolio page view-state controller, in Dafny

This project models `AppComponent`, the controller of a single-page data-analyst
portfolio, together with the records and seed content it starts from. The
controller keeps:

- the overlay flags: the selected project's modal, the image lightbox, the
  add-project and add-experience modals, the mobile menu and the back-to-top
  button;
- the contact form's status, one of idle, submitting, success or error, with
  its message;
- two lists the visitor can append to: projects and timeline experiences;
- the animated hero headline, whose characters are numbered by one running
  counter.

Files:

- `text.dfy` (module `Text`) models JavaScript's `trim`, one-character `split`
  and `join`, and the two parsing chains the forms use: tags split on commas
  and trimmed, and points split on newlines, trimmed and filtered for
  non-empty ones.
- `app_data.dfy` (module `AppData`) holds the `Project`, `CaseStudy` and
  `Experience` records and the seed projects, experiences and headline.
- `headline.dfy` (module `Headline`) specifies the animated headline as a
  function and proves the numbering gapless and increasing.
- `app_component.dfy` (module `App`) holds the class `AppComponent`. Its
  fields are the component's signals and forms. Its methods update them as
  the event handlers do. `AnimatedHeadline` threads the counter through
  nested loops and is proved equal to the headline specification.

Environment inputs are parameters:

- the scroll offset, to `OnWindowScroll`;
- whether the email control has an address's shape, to `OnSubmit`;
- whether the HTTP post succeeded, to `OnSubmitResponse`;
- whether the page runs in a browser, to the constructor.

## Model

| member | source | states |
|---|---|---|
| Text.IsWhitespace | data-analyst-portfolio/src/app.component.ts:244 | the characters `trim` removes: the ECMAScript WhiteSpace and LineTerminator code points (tab, line feed, vertical tab, form feed, carriage return, space, no-break space, the Unicode space separators, line and paragraph separators, byte order mark) |
| Text.AsciiWhitespace | data-analyst-portfolio/src/app.component.ts:244 | within ASCII, `trim` removes exactly tab, line feed, vertical tab, form feed, carriage return and space |
| Text.LeadingWhitespace | data-analyst-portfolio/src/app.component.ts:244 | the whitespace run `trim` removes at the front: all whitespace, and the next character (if any) is not |
| Text.TrailingWhitespace | data-analyst-portfolio/src/app.component.ts:244 | the whitespace run `trim` removes at the back: all whitespace, and the character before it (if any) is not |
| Text.Trim | data-analyst-portfolio/src/app.component.ts:244 | `trim` returns a slice of the input that starts right after the leading whitespace, has no whitespace at either end, and leaves only whitespace after it |
| Text.TrimFixesExactlyTrimmed | data-analyst-portfolio/src/app.component.ts:244 | `trim` leaves a string unchanged if and only if it has no whitespace at either end |
| Text.TrimUnpads | data-analyst-portfolio/src/app.component.ts:244 | `trim` strips any whitespace padding from a non-empty trimmed string |
| Text.TrimIdempotent | data-analyst-portfolio/src/app.component.ts:244 | trimming twice is trimming once |
| Text.TrimKeepsAbsent | data-analyst-portfolio/src/app.component.ts:279 | `trim` introduces no character, so a trimmed piece of a split holds no separator |
| Text.IndexOf | data-analyst-portfolio/src/app.component.ts:244 | the position where `split` cuts: it holds the separator, and no separator comes before it |
| Text.IndexOfIsFirst | data-analyst-portfolio/src/app.component.ts:244 | that cut position is the only one holding the separator with none before it |
| Text.Split | data-analyst-portfolio/src/app.component.ts:244 | `split` always returns at least one piece, even for the empty string |
| Text.SplitAtFirst | data-analyst-portfolio/src/app.component.ts:244 | `split` cuts at the first separator: the text before it, then the pieces of the text after it |
| Text.SplitAfterPiece | data-analyst-portfolio/src/app.component.ts:279 | a separator-free string followed by a separator is one whole piece, followed by the pieces of the rest |
| Text.SplitPieces | data-analyst-portfolio/src/app.component.ts:244 | `split` returns one piece more than there are separators, and no piece holds the separator |
| Text.JoinSplit | data-analyst-portfolio/src/app.component.ts:244 | joining the pieces of a split with the separator gives the input back |
| Text.Join | data-analyst-portfolio/src/app.component.ts:126 | `join` with a one-character separator: the result holds at least the first piece and one separator between each pair of pieces |
| Text.JoinStartsWithFirst | data-analyst-portfolio/src/app.component.ts:126 | the joined text starts with the first piece, followed by the separator when more pieces come |
| Text.SplitWithoutSeparator | data-analyst-portfolio/src/app.component.ts:244 | a string without the separator splits into just itself |
| Text.SplitAtSeparator | data-analyst-portfolio/src/app.component.ts:279 | the pieces of `a + sep + b` are the pieces of `a` followed by those of `b` |
| Text.SplitJoin | data-analyst-portfolio/src/app.component.ts:244 | splitting undoes joining when no piece holds the separator |
| Text.Map | data-analyst-portfolio/src/app.component.ts:244 | `map` keeps the length and applies the function at every position |
| Text.MapAppend | data-analyst-portfolio/src/app.component.ts:279 | `map` distributes over concatenation |
| Text.NonEmpty | data-analyst-portfolio/src/app.component.ts:279 | `filter(p => p)` keeps only non-empty strings, each taken from the input |
| Text.NonEmptyAppend | data-analyst-portfolio/src/app.component.ts:279 | the filter distributes over concatenation, so the kept strings stay in input order |
| Text.NonEmptyKeepsAll | data-analyst-portfolio/src/app.component.ts:279 | the filter keeps a list with no empty strings whole |
| Text.ParseTags | data-analyst-portfolio/src/app.component.ts:244 | one tag per comma-separated piece (comma count plus one, empty pieces kept), tag i is piece i trimmed, and no tag holds a comma or edge whitespace |
| Text.TagsRoundTrip | data-analyst-portfolio/src/app.component.ts:244 | writing clean tags comma-separated and parsing them gives the same tags back |
| Text.TagsExample | data-analyst-portfolio/src/app.component.ts:244 | `"Python,  SQL ,  Power BI"` parses to `["Python", "SQL", "Power BI"]` |
| Text.ParsePoints | data-analyst-portfolio/src/app.component.ts:279 | every point is non-empty, trimmed and free of newlines |
| Text.PointsOfTwoBlocks | data-analyst-portfolio/src/app.component.ts:279 | the points of two blocks of lines are the first block's points followed by the second's, so the input order is kept |
| Text.PointsExample | data-analyst-portfolio/src/app.component.ts:279 | `"SQL\n\n  Python  "` gives `["SQL", "Python"]`, so blank lines are dropped |
| Text.NoPointsInEmptyField | data-analyst-portfolio/src/app.component.ts:279 | an empty field gives no points |
| Text.TrimAllTrimmed | data-analyst-portfolio/src/app.component.ts:279 | trimming every string of a list of trimmed strings changes none of them |
| Text.PointsRoundTrip | data-analyst-portfolio/src/app.component.ts:279 | writing clean points one per line and parsing them gives the same points back |
| AppData.InitialProjects | data-analyst-portfolio/src/app.data.ts:71-92 | there are two seed projects, each with four tags |
| AppData.InitialExperiences | data-analyst-portfolio/src/app.data.ts:94-119 | there are two seed experiences, on the right and then the left, so they alternate |
| AppData.InitialHeadlineParts | data-analyst-portfolio/src/app.data.ts:136-145 | the seed headline has two lines of two spans each; both lines open in the gray class and end on "Data" and "Insights" |
| Headline.AnimatePart | data-analyst-portfolio/src/app.component.ts:117-121 | one span's characters, each with the span's class, numbered on from a start; one entry per character |
| Headline.AnimateLine | data-analyst-portfolio/src/app.component.ts:116-121 | one line's spans animated in turn, the counter carried from span to span; one entry per character of the line's text |
| Headline.Animate | data-analyst-portfolio/src/app.component.ts:113-124 | the animated headline, the specification of `animatedHeadline`: one row per line, the counter carried from line to line |
| Headline.FullHeadlineText | data-analyst-portfolio/src/app.component.ts:126 | each line's span texts concatenated, then the lines joined by single spaces; the result has at least the first line's characters plus one space per further line |
| Headline.AnimateLineAt | data-analyst-portfolio/src/app.component.ts:116-121 | a line gives one entry per character of its text, in order, with its span's class, numbered on from the start without gaps |
| Headline.AnimateAt | data-analyst-portfolio/src/app.component.ts:113-124 | the line structure is kept: row i is line i, numbered on from the characters of the lines above it |
| Headline.RevealOrderIsGapless | data-analyst-portfolio/src/app.component.ts:113-124 | read row after row, the indices run 0, 1, 2, … with one per character of the headline |
| Headline.RevealDelaysIncrease | data-analyst-portfolio/src/app.component.ts:120 | the indices, and so the delays, strictly increase along the reveal order |
| Headline.AnimationSpellsFullText | data-analyst-portfolio/src/app.component.ts:126 | each row spells its line, and the rows joined by spaces spell `fullHeadlineText` |
| Headline.AnimatePartStep | data-analyst-portfolio/src/app.component.ts:117-121 | numbering one more character of a span appends that character with the next index |
| Headline.AnimateLineStep | data-analyst-portfolio/src/app.component.ts:116-121 | the next span's characters follow those of the spans before it on its line |
| Headline.AnimateStep | data-analyst-portfolio/src/app.component.ts:115-122 | the next line's row is numbered on from the characters of the lines above it |
| Headline.SeedLineTexts | data-analyst-portfolio/src/app.data.ts:136-145 | the seed lines read "Turning Data" and "Into Insights" |
| Headline.SeedFirstLineCount | data-analyst-portfolio/src/app.data.ts:136-145 | the seed's first line has 12 characters |
| Headline.SeedHeadlineOrder | data-analyst-portfolio/src/app.data.ts:136-145 | the seed rows have 12 and 13 characters, with indices 0–11 and 12–24 |
| Headline.SeedHeadlineText | data-analyst-portfolio/src/app.data.ts:136-145 | the seed's full text is "Turning Data Into Insights" |
| App.StatusMessage | data-analyst-portfolio/src/app.component.ts:181-197 | the message shown with each submission state; it is empty exactly when the form is idle |
| App.ContactFormValid | data-analyst-portfolio/src/app.component.ts:74-79 | the contact form is valid when every control is filled and the email has the shape of an address |
| App.ProjectFormValid | data-analyst-portfolio/src/app.component.ts:81-88 | the add-project form is valid when every control is filled |
| App.ExperienceFormValid | data-analyst-portfolio/src/app.component.ts:90-95 | the add-experience form is valid when every control is filled |
| App.EmptyFormsInvalid | data-analyst-portfolio/src/app.component.ts:74-95 | a form just reset is invalid, so it cannot be submitted again before it is refilled |
| App.BuildProject | data-analyst-portfolio/src/app.component.ts:240-250 | the project an add-project form describes: title, image and case study copied, one trimmed comma-free tag per comma-separated piece |
| App.BuildExperience | data-analyst-portfolio/src/app.component.ts:275-281 | the experience an add-experience form describes, on the given side: role, company and date copied, every point non-empty, trimmed and free of newlines |
| App.NextAlign | data-analyst-portfolio/src/app.component.ts:272-273 | the new side is opposite the last experience's, and left when the timeline is empty |
| App.NextAlignKeepsAlternation | data-analyst-portfolio/src/app.component.ts:272-283 | appending on the side `NextAlign` picks keeps an alternating timeline alternating |
| App.AlternationIsParity | data-analyst-portfolio/src/app.component.ts:272-283 | on an alternating timeline, even places share the first entry's side and odd places take the other |
| App.SeedNextAlignIsRight | data-analyst-portfolio/src/app.data.ts:94-119 | the seed timeline alternates, and the first added experience goes on the right |
| App.AppComponent.constructor | data-analyst-portfolio/src/app.component.ts:52-111 | the page starts on the seeds with every overlay closed, empty forms, an idle status and no message in flight, and the invariant holds (an idle form has no message in flight, a submitting one has) |
| App.AppComponent.LightboxOpen | data-analyst-portfolio/src/app.component.ts:289 | the lightbox counts as open when its URL is set and non-empty: an unset or empty URL is closed, as JavaScript truthiness has it |
| App.AppComponent.OnWindowScroll | data-analyst-portfolio/src/app.component.ts:157-161 | in a browser, back-to-top shows if and only if the offset, a real number, exceeds 300 (exactly 300 hides it, 300.5 shows it); elsewhere nothing changes |
| App.AppComponent.ToggleMobileNav | data-analyst-portfolio/src/app.component.ts:163-165 | the mobile menu flag is negated |
| App.ToggleTwice | data-analyst-portfolio/src/app.component.ts:163-165 | toggling the mobile menu twice restores the flag |
| App.AppComponent.ScrollTo | data-analyst-portfolio/src/app.component.ts:167-170 | navigating always leaves the mobile menu closed |
| App.AppComponent.OnSubmit | data-analyst-portfolio/src/app.component.ts:177-181 | an invalid contact form leaves the status unchanged; a valid one is sent, so one more message awaits its answer, and the status becomes submitting with "Sending message..."; a second submission while one is in flight is not refused |
| App.AppComponent.OnSubmitResponse | data-analyst-portfolio/src/app.component.ts:190-200 | an answer comes only while a sent message awaits one, and settles that one; success sets "Message sent successfully!" and clears the form; failure sets the error message and keeps the form; either way the status message matches its state |
| App.AppComponent.OpenProjectModal | data-analyst-portfolio/src/app.component.ts:203-208 | the given project becomes the selected one |
| App.AppComponent.CloseProjectModal | data-analyst-portfolio/src/app.component.ts:210-216 | both the selected project and the lightbox are cleared |
| App.AppComponent.OpenImageLightbox | data-analyst-portfolio/src/app.component.ts:218-220 | the lightbox shows the given URL |
| App.AppComponent.CloseImageLightbox | data-analyst-portfolio/src/app.component.ts:222-224 | the lightbox URL is cleared |
| App.AppComponent.OpenAddProjectModal | data-analyst-portfolio/src/app.component.ts:226-229 | the add-project modal is shown |
| App.AppComponent.CloseAddProjectModal | data-analyst-portfolio/src/app.component.ts:231-234 | the add-project modal is hidden |
| App.AppComponent.OpenAddExperienceModal | data-analyst-portfolio/src/app.component.ts:257-260 | the add-experience modal is shown |
| App.AppComponent.CloseAddExperienceModal | data-analyst-portfolio/src/app.component.ts:262-265 | the add-experience modal is hidden |
| App.AppComponent.OnAddProject | data-analyst-portfolio/src/app.component.ts:236-255 | an invalid form changes nothing; a valid one appends exactly one project, built from the form with parsed tags, after the unchanged old list, then clears the form and closes the modal |
| App.AppComponent.OnAddExperience | data-analyst-portfolio/src/app.component.ts:267-286 | an invalid form changes nothing; a valid one appends exactly one experience with parsed points on the side opposite the last entry, after the unchanged old list, then clears the form and closes the modal; alternation and the invariant are preserved |
| App.AppComponent.OnEscapeKey | data-analyst-portfolio/src/app.component.ts:288-298 | closes only the first open overlay in the order lightbox, project modal, add-project, add-experience; with none open nothing changes; otherwise the open-overlay count drops by exactly one |
| App.AppComponent.AnimatePartFrom | data-analyst-portfolio/src/app.component.ts:117-121 | walking one span character by character from a counter value yields exactly that span's entries of the specification |
| App.AppComponent.AnimateLineFrom | data-analyst-portfolio/src/app.component.ts:116-122 | walking one line span by span from a counter value yields exactly that line's row of the specification, and leaves the counter advanced by the line's length |
| App.AppComponent.AnimatedHeadline | data-analyst-portfolio/src/app.component.ts:113-124 | the nested loops with one running counter compute exactly the headline specification `Headline.Animate` |
| App.AppComponent.FullHeadlineText | data-analyst-portfolio/src/app.component.ts:126 | on the seed headline, the full text is "Turning Data Into Insights" |

## Left out

- The HTTP post to the form service, the `FormData` payload and its access key (app.component.ts:183-200). They are network I/O. The model keeps the status transitions. A ghost counter, `pending`, stands for the posts in flight: `OnSubmit` adds one, and `OnSubmitResponse` may only be called while it is positive and takes the outcome as a parameter.
- Angular's `Validators.required` and `Validators.email`. They are library code. A control counts as filled when it is non-empty. The email control's shape comes in as the boolean `emailWellFormed`.
- `form.reset()` sets every control to null. The model uses the all-empty form instead. Both are invalid under "required", so validity is the same.
- `ngAfterViewInit`, its `IntersectionObserver` and the `isChartVisible` flag are browser plumbing.
- The `Renderer2` `modal-open` body class in the open/close methods is DOM state.
- `scrollIntoView` in `scrollTo` and all of `scrollToTop` are DOM-only.
- Reading `window.scrollY || document.documentElement.scrollTop` is the browser's. `OnWindowScroll` takes the offset as a real-valued parameter, since the browser may report a fractional one.
- `ngOnInit` and `currentYear` read the clock.
- The delay string `${charIndex * 0.05}s` is floating-point formatting. The model keeps the integer index the delay is computed from.
- The change-detection scheduling of Angular signals and `computed` is not modelled. Each signal is a field that a method reassigns.
- `App.AppComponent.AnimatedHeadline`: `split('')` cuts a JavaScript string into UTF-16 code units. The model cuts it into Dafny characters. The two agree on the seed headline, which is plain ASCII.
- `initialTechProficiencies` and `initialCertifications` are inert display data with no behaviour.
- `index.tsx` only bootstraps the framework.
- `AppData.InitialProjects`: the contract states the count of projects and tags, not each literal text. The full seed texts are in the body.
