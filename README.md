# Portfolio site: a Dafny model of its interactive logic

The repository is a single-page React portfolio. Almost all of it is markup
and animation. This project models the parts that compute or keep state:

- **Contact form** (`ContactForm`): four text fields and the error record. The
  rule is "required" when a field trims to nothing, plus an email pattern
  `^\S+@\S+\.\S+$` matched against the untrimmed address. Editing a field
  clears that field's error. A valid submission goes "sending", then
  "sent", then back to the form. Its two delayed callbacks are explicit
  events.
- **Project catalogue** (`ProjectCatalogue`): the category filter, the first
  three technology chips with a "+N" badge, and the fallback from the long
  to the short description. The detail modal and the page-body `overflow`
  flag are set on open and close.
- **Skill charts** (`SkillCharts`): the `reduce` that groups skills into
  per-category buckets. The radar series concatenates the Frontend, Backend
  and Tools buckets. Each doughnut series is one bucket.
- **Progress bar** (`ProgressBar`): the fill percentage, clamped to 0..100.
- **Navbar** (`Navbar`): the in-page link table. The `scrolled` flag is
  derived from a 20-pixel threshold. The mobile menu's `isOpen` flag is
  flipped by the button and cleared by a link.
- **Animated headings** (`AnimatedText`): `text.split(' ')` and one span per
  word.

Each source component is one module. Three modules each hold a class:
`ContactSection`, `ProjectsSection` and `NavbarState`. Their fields are the
component's state. `ContactSection` also counts the pending timer callbacks
of each kind, and `ProjectsSection` also holds the page body's `overflow`
style. Each event handler is a method on those fields. The event methods
also state what the page then shows (the success panel, the submit caption,
the mobile menu, its icon and the header look). The method `ComputeErrors`
builds the error record of `validateForm` field by field, using the methods
`IsEmptyAfterTrim` and `TestEmailPattern`. The skills `reduce` is a loop
over an accumulating map. The rest are functions, plus a few scenario
methods that chain events. Several functions are tied to a partner:

- `Split`/`Join` round-trips for the heading words.
- A scanner for the email pattern proved equivalent to the pattern's
  meaning, and `trim()` tied to a blank-string predicate.
- `Bucket` filters that pin down the grouping loop, with a partition lemma.
- The project filter's identity and idempotence lemmas.

`TechChips`, `ModalDescription` and `CategoryNamed` have only their own
contracts, which determine their results. `NavLinks` has only its own
contract too; it fixes every target and offset and Home's name, and makes
the names distinct.

`Wrappers` holds `Option` and an order-preserving subsequence predicate.

## Model

| member | source | states |
|---|---|---|
| ContactForm.FormData.With | src/components/sections/Contact.tsx:144 | the edited field takes the new value and every other field keeps its old value |
| ContactForm.TrimEmptyIffBlank | src/components/sections/Contact.tsx:120 | `s.trim()` is empty exactly when every character of `s` is ECMAScript whitespace or a line terminator |
| ContactForm.EmailShapeIsPattern | src/components/sections/Contact.tsx:126 | the character scan accepts exactly the strings made of a whitespace-free run, `@`, a whitespace-free run, `.`, and a whitespace-free run, each run non-empty |
| ContactForm.PaddedEmailIsInvalid | src/components/sections/Contact.tsx:124-128 | an address with leading or trailing whitespace never matches the pattern |
| ContactForm.IsEmptyAfterTrim | src/components/sections/Contact.tsx:120 | `!s.trim()` holds exactly for blank strings |
| ContactForm.TestEmailPattern | src/components/sections/Contact.tsx:126 | the pattern check on the untrimmed string returns exactly whether it matches |
| ContactForm.ComputeErrors | src/components/sections/Contact.tsx:117-137 | each field has the message the rules prescribe: "… is required" iff blank; for email, "required" iff blank, else "invalid" iff no match; the record is empty iff the form is acceptable |
| ContactForm.AcceptableIffNoError | src/components/sections/Contact.tsx:117-139 | the form is acceptable exactly when no field has an error |
| ContactForm.EmailErrorsExclusive | src/components/sections/Contact.tsx:124-128 | the email gets "required" exactly when blank, and "invalid" exactly when non-blank and not matching |
| ContactForm.PaddedAddressScenario | src/components/sections/Contact.tsx:124-128 | " me@site.dev" gets "Email is invalid", not "Email is required" |
| ContactForm.SampleFormAcceptable | src/components/sections/Contact.tsx:117-139 | a filled-in sample form passes validation |
| ContactForm.ContactSection.constructor | src/components/sections/Contact.tsx:25-34 | empty fields, no errors, not submitting, status idle |
| ContactForm.ContactSection.ValidateForm | src/components/sections/Contact.tsx:117-140 | writes the error record the rules prescribe and returns true exactly when it is empty, that is when the form is acceptable |
| ContactForm.ContactSection.HandleChange | src/components/sections/Contact.tsx:142-150 | only the named field changes, and only that field's error is removed |
| ContactForm.ContactSection.HandleSubmit | src/components/sections/Contact.tsx:152-159 | as written: errors are always recomputed; an unacceptable form leaves the submission state alone; an acceptable one starts submitting, schedules one more callback and the button reads "Sending..." |
| ContactForm.ContactSection.HandleSubmitOnce | src/components/sections/Contact.tsx:325-333 | the intended handler behind a disabled button: a click while submitting changes nothing; otherwise as `handleSubmit`; at most one submission callback stays pending |
| ContactForm.ContactSection.SendTimerFires | src/components/sections/Contact.tsx:162-176 | submitting ends, status becomes success so the success panel replaces the form, the caption is back to "Send Message", all four fields are emptied, and one status reset is scheduled |
| ContactForm.ContactSection.ResetTimerFires | src/components/sections/Contact.tsx:173-175 | status goes back to idle and the form is shown again |
| ContactForm.ContactSection.SendAnother | src/components/sections/Contact.tsx:224-233 | status goes back to idle and the form is shown again |
| ContactForm.DoubleSubmitScenario | src/components/sections/Contact.tsx:330 | as written, two clicks on a valid form within the delay leave two submission callbacks pending |
| ContactForm.OnceDoubleSubmitScenario | src/components/sections/Contact.tsx:330 | with the intended disabled button, the same two clicks leave one callback pending |
| ContactForm.FillSampleForm | src/components/sections/Contact.tsx:142-150 | four edits fill the form with the sample values and touch no submission state |
| ProjectCatalogue.FilterProjects | src/components/sections/Projects.tsx:22-24 | a project is kept iff the filter is All or its category list contains the filter; each kept project keeps its multiplicity; the result is an order-preserving subsequence |
| ProjectCatalogue.FilterAllIsIdentity | src/components/sections/Projects.tsx:22-24 | the All filter returns the whole list |
| ProjectCatalogue.FilterIdempotent | src/components/sections/Projects.tsx:22-24 | filtering the filtered list again changes nothing |
| ProjectCatalogue.TechChips | src/components/sections/Projects.tsx:176-186 | the chips are exactly the first three technologies (all of them when there are fewer); a badge iff there are more than three, showing length − 3, so chips plus badge count equal the total |
| ProjectCatalogue.ModalDescription | src/components/sections/Projects.tsx:248 | the long description when present and non-empty, otherwise the short one |
| ProjectCatalogue.ProjectsSection.constructor | src/components/sections/Projects.tsx:14-15 | filter All, no project selected |
| ProjectCatalogue.ProjectsSection.SetActiveCategory | src/components/sections/Projects.tsx:130-138 | the filter becomes the clicked category; the selected project and the body overflow are untouched |
| ProjectCatalogue.ProjectsSection.OpenProjectModal | src/components/sections/Projects.tsx:103-106 | the project is selected and the body overflow becomes hidden |
| ProjectCatalogue.ProjectsSection.CloseProjectModal | src/components/sections/Projects.tsx:108-111 | no project is selected and the body overflow becomes auto |
| ProjectCatalogue.ProjectsSection.ModalRendered | src/components/sections/Projects.tsx:210 | the modal is rendered exactly while a project is selected, and then the page does not scroll |
| ProjectCatalogue.ProjectsSection.VisibleProjects | src/components/sections/Projects.tsx:22-24 | the cards on screen are the projects shown under the active filter |
| SkillCharts.CategoryNamed | src/types/index.ts:17 | a key names at most one category, and the result is the inverse of the category's name |
| SkillCharts.BucketSnoc | src/components/sections/Skills.tsx:125 | pushing a skill extends its own category's bucket and no other |
| SkillCharts.BucketMembers | src/components/sections/Skills.tsx:121-127 | a bucket holds exactly the skills of its category |
| SkillCharts.BucketKeepsOrder | src/components/sections/Skills.tsx:125 | a bucket is an order-preserving subsequence of the skills |
| SkillCharts.GroupByCategory | src/components/sections/Skills.tsx:121-127 | the reduce yields a key exactly for the categories present, each holding its bucket |
| SkillCharts.GroupStep | src/components/sections/Skills.tsx:122-126 | one step (create the bucket if missing, then push) keeps the grouping exact for the longer prefix |
| SkillCharts.GroupedSkillsInOwnBucket | src/components/sections/Skills.tsx:121-127 | every skill is in its own category's bucket, and a bucket holds only skills of that category |
| SkillCharts.BucketsPartition | src/components/sections/Skills.tsx:121-127 | the three buckets together are a permutation of the skills |
| SkillCharts.BucketSizes | src/components/sections/Skills.tsx:121-127 | the bucket sizes add up to the number of skills |
| SkillCharts.Lookup | src/components/sections/Skills.tsx:151 | for a key that is not a property of the record (any key but an inherited `Object.prototype` name), a key naming no category, or a category with no skills, gives the empty list; otherwise the category's bucket |
| SkillCharts.RadarSeries | src/components/sections/Skills.tsx:130-138 | labels and data are equally long, and entry i is the name and the level of the i-th skill of Frontend, then Backend, then Tools |
| SkillCharts.RadarCoversEverySkill | src/components/sections/Skills.tsx:131-138 | on a grouping, the radar holds every skill exactly once |
| SkillCharts.DonutSeries | src/components/sections/Skills.tsx:150-153 | names and levels of the bucket, aligned; two empty lists for a key that is neither a category name nor an inherited `Object.prototype` name |
| SkillCharts.DonutOfGrouping | src/components/sections/Skills.tsx:150-153 | on a grouping, the doughnut of a category shows exactly that category's skills, in order |
| ProgressBar.Percentage | src/components/common/ProgressBar.tsx:17 | the percentage always lies in 0..100 |
| ProgressBar.PercentageInRange | src/components/common/ProgressBar.tsx:17 | for 0 <= value <= max, the percentage is value / max * 100 |
| ProgressBar.PercentageAtMostZero | src/components/common/ProgressBar.tsx:17 | a value at or below zero gives 0 |
| ProgressBar.PercentageAtLeastMax | src/components/common/ProgressBar.tsx:17 | a value at or above max gives 100 |
| ProgressBar.PercentageDefaultMax | src/components/common/ProgressBar.tsx:13-17 | with the default max of 100, the percentage is the value clamped to 0..100 |
| ProgressBar.PercentageMonotone | src/components/common/ProgressBar.tsx:17 | for a fixed max, a larger value never gives a smaller percentage |
| Navbar.NavLinks | src/components/layout/Navbar.tsx:7-14 | six links whose targets are the page's sections in page order; targets and names distinct; Home has offset 0 and the others -70 |
| Navbar.NavbarState.constructor | src/components/layout/Navbar.tsx:17-18 | menu closed, not scrolled |
| Navbar.NavbarState.HandleScroll | src/components/layout/Navbar.tsx:21-25 | afterwards `scrolled` is scrollY > 20 and the header is frosted exactly then; the state is written exactly when that differs from the old value |
| Navbar.NavbarState.ToggleMenu | src/components/layout/Navbar.tsx:86-97 | the menu flag flips, so the mobile menu appears exactly when it was hidden, and the button shows the cross exactly then |
| Navbar.NavbarState.MobileLinkClicked | src/components/layout/Navbar.tsx:90-117 | the menu closes: the mobile menu is gone and the button shows the bars |
| Navbar.ScrollTwiceAt | src/components/layout/Navbar.tsx:21-25 | a second scroll event at the same position writes nothing, and the menu is left alone |
| Navbar.OpenThenFollowLink | src/components/layout/Navbar.tsx:86-117 | opening the menu and following a link leaves it closed and the scroll state unchanged |
| AnimatedText.Split | src/components/common/AnimatedText.tsx:16 | splitting always yields at least one word |
| AnimatedText.JoinSplit | src/components/common/AnimatedText.tsx:16 | joining the words with single spaces gives back the text exactly |
| AnimatedText.SplitCount | src/components/common/AnimatedText.tsx:16 | there is one more word than there are spaces, so the empty text has one empty word |
| AnimatedText.SplitWordsHaveNoSpace | src/components/common/AnimatedText.tsx:16 | no word contains a space |
| AnimatedText.SplitJoin | src/components/common/AnimatedText.tsx:16 | a non-empty list of space-free words is recovered by splitting its join |
| AnimatedText.RenderSpans | src/components/common/AnimatedText.tsx:55-62 | one span per word, in order, keyed by its index, whose words join back to the text |

## Left out

- The three.js background scenes in every section are left out. They are a
  foreign library driven by animation frames, random numbers and floating
  point.
- Hero parallax, chart.js registration and options, and framer-motion
  variants are left out. They are animation and presentation settings only.
- `toFixed(0)` on the progress label is left out. It is floating-point
  formatting.
- ProgressBar.Percentage: `max = 0` yields NaN or Infinity in JavaScript.
  The model requires `max > 0` instead. Values are exact reals, not IEEE
  doubles.
- ContactForm.ContactSection.SendTimerFires and ResetTimerFires: `setTimeout`
  is not modelled as time. Each scheduled callback is an explicit event,
  counted by `pendingSends` and `pendingResets`, so the order in which
  callbacks fire is left open.
- ContactForm.ContactSection.HandleChange: clearing an error sets the key to
  `undefined` in the source. The model removes the key. Every reader of the
  record only asks whether a message is present.
- ContactForm.ContactSection.HandleSubmit: a second submission while one
  is in flight is accepted, as in the source. The page passes
  `disabled={isSubmitting}` to `Button`, but `Button` drops that prop, so the
  button stays enabled (see Findings). React's batching of state updates is
  not modelled; each handler acts at once.
- ContactForm.PaddedEmailIsInvalid and PaddedAddressScenario describe the
  submit handler, not what the browser shows. The address is an
  `<input type="email">` in a form without `noValidate`. The browser strips
  leading and trailing ASCII whitespace and newlines from such a value. It
  also blocks the submit event for a non-empty malformed address, so the
  handler does not run and no error is written. The model leaves out this
  sanitisation and constraint validation: `HandleChange` takes any string and
  `HandleSubmit` runs on any form.
- The submission status: the `'error'` value exists in the type but is
  never set. `Valid` states that it never occurs.
- Strings and whitespace: JavaScript strings are UTF-16. The model works on
  Dafny characters, and whitespace is the ECMAScript WhiteSpace and
  LineTerminator set that both `trim` and `\s` use. No regular-expression
  engine is modelled; the pattern is given by its meaning and by an
  equivalent character scan.
- The page body: `document.body.style.overflow` is a field
  of the section. Before the first modal it is `Unset`.
- ProjectCatalogue.TechChips: the badge text `+N` is modelled as the number N.
- The project, skill, timeline and social-link tables in `src/data` are not
  part of this model. All lemmas are stated for any list.
- Skill levels: `level` is an integer, whereas the source's `number` is
  a double; the skill data only uses whole levels.
- SkillCharts.Lookup and SkillCharts.DonutSeries: the record is a plain `{}`.
  A key inherited from `Object.prototype` (`"toString"`, `"constructor"`,
  `"valueOf"`, `"__proto__"`) reads a non-nullish value without `map`, and
  `?.map(...)` then throws a TypeError; the model returns the empty list.
  The page only ever passes the three category names.
- SkillCharts.GroupByCategory: the source builds a record keyed by category
  name. The model keys the map by the category and resolves a string key
  with `CategoryNamed`. Category names are distinct, so the two agree on
  every lookup.
- Navbar.NavbarState.HandleScroll: the window's `scrollY` is a parameter.
  Registering and removing the scroll listener is not modelled.
- Navbar.NavbarState.Look: the header's class strings are reduced to two
  looks, transparent and frosted.
- ThemeContext and the theme toggle are not part of this model; nothing
  modelled depends on the theme. The App loading delay and the markup-only
  components (Button, SectionTitle, SocialLinks, Footer, About, Resume) are
  left out.

## Findings

| source | as written | input that shows it | evidently intended | confidence | as-written member | corrected member |
|---|---|---|---|---|---|---|
| src/components/sections/Contact.tsx:325-333 | the submit button gets `disabled={isSubmitting}`, but `Button` (src/components/common/Button.tsx:18-29, 77-83) never reads `disabled`, so the button stays enabled while sending | a valid form and two clicks on "Send Message" within 1500 ms: `handleSubmit` runs twice and two success callbacks (and two status resets) are scheduled | the button is disabled while submitting, so a click during a pending submission does nothing and at most one callback is pending | high (not executed) | ContactForm.DoubleSubmitScenario | ContactForm.ContactSection.HandleSubmitOnce |
