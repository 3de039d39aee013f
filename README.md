# Email template editor: a verified model of its renderer and data operations

The editor lets a user choose one of three stored HTML e-mail templates, edit
the values of the template's fields in a control panel, and watch a live
preview. This project models in Dafny the logic behind that, and proves
properties of the model:

- **Renderer** (`EmailPreview`, file `email_preview.dfy`). The preview starts
  from the template's `htmlTemplate` and takes the fields in list order. For
  each field it derives a token: `{{`, then the id upper-cased with only its
  *first* `-` turned into `_`, then `}}`. It replaces every non-overlapping
  occurrence of that token in the running string with the field's raw value.
  Last, it replaces `{{TITLE}}` by the template's name. `RenderedHtml` is that
  loop, proved to compute the function `Render`. The lemmas cover:
  - how tokens are derived;
  - what one field step does;
  - how the result depends on field order;
  - how conditional block markers pass through.
- **String operations** (`Strings`, file `strings.dfy`):
  - ASCII upper- and lower-casing;
  - replacing the first occurrence of a character;
  - the literal left-to-right global replace, which stands for
    `replace(new RegExp(token, 'g'), value)`;
  - splitting, joining and counting matches.
- **Template data** (`Templates`, file `templates.dfy`):
  - the `TemplateField` and `TemplateData` records;
  - the three seed templates, with their fields and bodies copied
    character for character;
  - the id-keyed table, `GetTemplateById` and `GetAllTemplates`.

  Each seed body is written as its static markup woven together with its
  placeholders, so facts about the placeholders can be proved without
  scanning the whole literal.
- **Seed facts** (`SeedChecks`, file `seed_checks.dfy`). For each seed
  template, these lemmas state:
  - the token each field id derives;
  - that the token of every non-toggle field occurs in the body;
  - where `{{TITLE}}` and the block markers are;
  - that a toggle's own token matches nothing;
  - which sections the control panel shows for it.
- **Control panel** (`ControlPanel`, file `control_panel.dfy`):
  - the copy-on-write field edit (`handleFieldUpdate`) and the editor's
    record merge that receives it;
  - the de-duplicated section list;
  - the initially active section;
  - the per-section filter and the tabs built from it.

Field names follow the source, with two exceptions:
- the field type is `kind`, because `type` is a Dafny keyword;
- the field label is `caption`, because `label` is one too.

`getTemplateById`'s `null` is `None` of an `Option`.

### Behaviour of the code as written

The model keeps these properties of the code, which a reader might expect
to be otherwise:

- **Hyphens.** Only the first hyphen of an id becomes `_`, because
  `String.prototype.replace` with a string pattern replaces only the first
  match. So the two-hyphen toggle ids derive tokens such as
  `{{SHOW_OPTIONAL-SECTION}}`. These tokens are none of the placeholders the
  bodies are built from (`SeedChecks.NewsletterToggleUnmatched`). The block
  markers use the all-underscore form. That form is in the model only as
  `SeedChecks.MarkerName`, labelled as not being what the renderer derives.
- **Conditional blocks.** Nothing resolves the `{{#…}}`/`{{/…}}` blocks. The
  markers reach the output unchanged (`EmailPreview.RenderKeepsMarker`).
  Whatever sits between them is always rendered, whatever the toggle says.
- **Field order.** The result can depend on field order. A field's value may
  contain a later field's token, which the later step then replaces. The
  reverse case is not replaced (`EmailPreview.LaterFieldFillsEarlierValue`,
  `EmailPreview.EarlierFieldMissesLaterValue`).
- **`{{TITLE}}` in a value.** `{{TITLE}}` is replaced after all field steps,
  so a `{{TITLE}}` that a field value brings in is replaced too
  (`EmailPreview.TitleInValueReplaced`).
- **The rich-text type.** The rich-text field type is `wysiwyg` in the code
  (`Wysiwyg` here).

Several lemmas are stated for *plain* ids (`EmailPreview.PlainId`). A plain
id uses only `[a-z0-9-]` and is not made of digits alone. Every seed id is
plain.

## Model

| member | source | states |
|---|---|---|
| Strings.Upper | src/components/EmailPreview.tsx:15 | `toUpperCase` on ASCII: same length, each character mapped by `UpperChar` (a-z shifted to A-Z, everything else kept) |
| Strings.FirstIndex | src/components/EmailPreview.tsx:15 | the position of the first occurrence of a character (or the length when absent): no earlier occurrence, and the character is at that position |
| Strings.ReplaceFirst | src/components/EmailPreview.tsx:15 | `replace('-', '_')` with a string pattern: same length, identity when the character is absent, and every position either kept or the replaced character turned into the replacement |
| Strings.ReplaceFirstAt | src/components/EmailPreview.tsx:15 | when the first occurrence is at `k`, the result is the input with position `k` replaced, and nothing else changed |
| Strings.CountZeroIff | src/components/EmailPreview.tsx:16 | the number of non-overlapping matches is zero exactly when the pattern does not occur |
| Strings.ReplaceAllAbsent | src/components/EmailPreview.tsx:16 | a global replace of a pattern that does not occur leaves the string unchanged |
| Strings.ReplaceAllSelf | src/components/EmailPreview.tsx:16 | replacing a pattern by itself is the identity |
| Strings.ReplaceAllWhole | src/components/EmailPreview.tsx:16 | a string that is exactly the pattern becomes exactly the replacement, so inserted text is not rescanned |
| Strings.ReplaceAllLength | src/components/EmailPreview.tsx:16 | the length after a global replace is the old length plus the match count times the difference of replacement and pattern lengths |
| Strings.SplitJoin | src/components/EmailPreview.tsx:16 | splitting at the left-to-right non-overlapping matches and re-joining with the pattern gives back the input |
| Strings.ReplaceAll | src/components/EmailPreview.tsx:16-20 | `replace(new RegExp(pat, 'g'), rep)` with the pattern read literally, as in the field step (line 16) and the title step (line 20): the string split at its left-to-right, non-overlapping matches and re-joined with the replacement |
| Strings.SplitCount | src/components/EmailPreview.tsx:16 | the split has one more piece than there are matches |
| Strings.SplitPiecesFree | src/components/EmailPreview.tsx:16 | no piece of the split contains the pattern |
| Strings.ReplaceAllConcat | src/components/EmailPreview.tsx:16 | when no match straddles the join point, a global replace of a concatenation is the concatenation of the replaces |
| Strings.CountConcat | src/components/EmailPreview.tsx:16 | when no match straddles the join point, the match counts of the two parts add up |
| Strings.ReplaceAllKeepsOccurs | src/components/EmailPreview.tsx:16 | a substring that no match of the pattern overlaps still occurs after the global replace |
| Strings.PlaceholderInPlaceholder | src/components/EmailPreview.tsx:15 | for brace-free names, one `{{name}}` occurring inside another forces the names to be equal |
| Strings.PlaceholderMarkerDisjoint | src/components/EmailPreview.tsx:15-16 | an occurrence of a `{{name}}` whose name does not start with `#` or `/` never overlaps an occurrence of a `{{#…}}`/`{{/…}}` marker |
| Templates.NewsletterBodyWoven | src/lib/templateData.ts:70-109 | the newsletter body is its static markup interleaved with its placeholders `TITLE`, `HEADER_LINK`, `HEADER_IMAGE`, `MAIN_CONTENT`, `#SHOW_OPTIONAL_SECTION`, `OPTIONAL_CONTENT`, `/SHOW_OPTIONAL_SECTION`, `FOOTER_CONTENT`, in that order |
| Templates.PromotionalBodyWoven | src/lib/templateData.ts:161-200 | the promotional body is its static markup interleaved with its placeholders, in the order they appear |
| Templates.WelcomeSeriesBodyWoven | src/lib/templateData.ts:252-290 | the welcome-series body is its static markup interleaved with its placeholders, in the order they appear |
| Templates.SeedIds | src/lib/templateData.ts:20-203 | the three stored templates carry the ids `newsletter-basic`, `promotional` and `welcome-series` |
| Templates.Table | src/lib/templateData.ts:19-292 | the `templates` record: the three seed templates keyed by `newsletter-basic`, `promotional` and `welcome-series` |
| Templates.TableEntry | src/lib/templateData.ts:19-292 | the table's keys are exactly the three seed ids, and each key equals the `id` of its entry |
| Templates.GetTemplateById | src/lib/templateData.ts:294-296 | returns an entry exactly when the id is one of the three keys; that entry is the stored one and has the requested id; any other id gives `None` (the source's `null`) |
| Templates.GetAllTemplates | src/lib/templateData.ts:298-300 | exactly the three stored entries, in key order, each with its key as id, and with pairwise distinct ids |
| Templates.NewsletterShape | src/lib/templateData.ts:24-68 | six fields with the listed ids and types; the toggle `show-optional-section` is on (`"true"`) and controls `optional-content` |
| Templates.PromotionalShape | src/lib/templateData.ts:115-159 | six fields with the listed ids and types; the toggle `show-bonus-section` is on and controls `bonus-content` |
| Templates.WelcomeSeriesShape | src/lib/templateData.ts:206-250 | six fields with the listed ids and types; the toggle `show-getting-started` is on and controls `getting-started` |
| Templates.NewsletterFieldsValid | src/lib/templateData.ts:24-68 | field ids are unique, every toggle has value `"true"`, and its `controlsSection` names another field of the template |
| Templates.PromotionalFieldsValid | src/lib/templateData.ts:115-159 | field ids are unique, every toggle is on and controls another field of the template |
| Templates.WelcomeSeriesFieldsValid | src/lib/templateData.ts:206-250 | field ids are unique, every toggle is on and controls another field of the template |
| Templates.SeedFieldsWellFormed | src/lib/templateData.ts:298-300 | every template `getAllTemplates` returns has unique field ids and resolvable, switched-on toggles |
| EmailPreview.TokenName | src/components/EmailPreview.tsx:15 | the token name has the length of the id |
| EmailPreview.Token | src/components/EmailPreview.tsx:15 | the token is four characters longer than the id |
| EmailPreview.TokenNameAt | src/components/EmailPreview.tsx:15 | when the first hyphen of the id is at `k`, the token name is the upper-cased id with only position `k` turned into `_` |
| EmailPreview.TokenNoHyphen | src/components/EmailPreview.tsx:15 | an id without a hyphen is only upper-cased |
| EmailPreview.UpperKeepsHyphens | src/components/EmailPreview.tsx:15 | upper-casing leaves hyphens where they are and creates none |
| EmailPreview.HyphensPointwise | src/components/EmailPreview.tsx:15 | two strings of equal length with hyphens at the same positions have the same number of hyphens |
| EmailPreview.HyphensUpdate | src/components/EmailPreview.tsx:15 | turning one hyphen into another character lowers the hyphen count by one |
| EmailPreview.HyphensZero | src/components/EmailPreview.tsx:15 | the hyphen count is zero exactly when there is no hyphen |
| EmailPreview.TokenKeepsLaterHyphens | src/components/EmailPreview.tsx:15 | an id with k ≥ 1 hyphens keeps k − 1 of them in its token name; an id with none keeps none |
| EmailPreview.TokenNameShape | src/components/EmailPreview.tsx:15 | for plain ids the token name contains no brace, `#` or `/` |
| EmailPreview.TokenNotMarker | src/components/EmailPreview.tsx:15 | for plain ids a token starts with `{{` but never with `{{#` or `{{/` |
| EmailPreview.TokenNameInverse | src/components/EmailPreview.tsx:15 | for plain ids the id is recovered from its token name by lower-casing and turning the first `_` back into `-` |
| EmailPreview.TokenInjective | src/components/EmailPreview.tsx:15 | distinct plain ids derive distinct tokens |
| EmailPreview.Substitute | src/components/EmailPreview.tsx:15-16 | one field step is the body split at the matches of the field's token and re-joined with the field's value |
| EmailPreview.ApplyFields | src/components/EmailPreview.tsx:14-17 | the `forEach` over the fields in list order; the body comes back unchanged when it contains none of the fields' tokens, or when every field's value is its own token |
| EmailPreview.Render | src/components/EmailPreview.tsx:10-23 | all field steps, then the title step; a body that holds neither `{{TITLE}}` nor any field's token is rendered as it is |
| EmailPreview.RenderedHtml | src/components/EmailPreview.tsx:10-23 | the loop that substitutes the fields in list order and then `{{TITLE}}` computes `Render(t)`; its invariant is that after `i` steps the string is the body with the first `i` fields applied |
| EmailPreview.SubstituteSplitJoin | src/components/EmailPreview.tsx:16 | one field step is the body split at the left-to-right non-overlapping token matches and re-joined with the value; re-joining with the token gives back the body, no piece contains the token, and there is one piece more than there are matches |
| EmailPreview.SubstituteNotRescanned | src/components/EmailPreview.tsx:16 | a body that is exactly the token becomes exactly the value, whatever the value contains, so inserted text is not rescanned within the step |
| EmailPreview.SubstituteAbsent | src/components/EmailPreview.tsx:16 | a step whose token does not occur leaves the string unchanged |
| EmailPreview.SubstituteSelf | src/components/EmailPreview.tsx:16 | a step whose value is its own token leaves the string unchanged |
| EmailPreview.SubstituteLength | src/components/EmailPreview.tsx:16 | after a step the length is the old length + n·(|value| − |token|), n the number of matches |
| EmailPreview.ApplyFieldsAbsent | src/components/EmailPreview.tsx:14-17 | appending a field whose token does not occur in the string so far does not change the result |
| EmailPreview.ApplyTwo | src/components/EmailPreview.tsx:14-17 | two fields are applied one after the other, first to last |
| EmailPreview.LaterFieldFillsEarlierValue | src/components/EmailPreview.tsx:14-17 | when the first field's value is the second field's token, the second step fills it in: rendering gives the second field's value |
| EmailPreview.EarlierFieldMissesLaterValue | src/components/EmailPreview.tsx:14-17 | with the same two fields in the opposite order, the token inserted by the later step is left in the output, so the result depends on field order |
| EmailPreview.RenderBodyOnly | src/components/EmailPreview.tsx:11-22 | with no fields and no `{{TITLE}}` in the body, the output is the body |
| EmailPreview.TitleInValueReplaced | src/components/EmailPreview.tsx:20 | a `{{TITLE}}` brought in by a field value is replaced by the name too, because the title step runs after all field steps |
| EmailPreview.TitleIsToken | src/components/EmailPreview.tsx:15-20 | a field with id `title` derives exactly the `{{TITLE}}` token |
| EmailPreview.TokenNotInOtherToken | src/components/EmailPreview.tsx:15 | the token of one plain id never occurs inside the token of a different id |
| EmailPreview.MarkerUntouched | src/components/EmailPreview.tsx:15-16 | no occurrence of a field token overlaps an occurrence of a `{{#…}}`/`{{/…}}` marker |
| EmailPreview.ApplyFieldsKeepsMarker | src/components/EmailPreview.tsx:14-17 | a block marker present in the body is still present after all field steps, when the ids are plain |
| EmailPreview.RenderKeepsMarker | src/components/EmailPreview.tsx:11-22 | a block marker present in the body is present in the rendered output, when the ids are plain |
| SeedChecks.TokenNameOf | src/components/EmailPreview.tsx:15 | computes a concrete token name from the first hyphen's position and the upper-cased id |
| SeedChecks.MarkerName | src/lib/templateData.ts:97-101 | the all-underscore form used by the block markers (not what the renderer derives) has the id's length and no hyphen |
| SeedChecks.TokenInBody | src/lib/templateData.ts:70-290 | a field whose token name is one of a woven body's placeholders has its token in that body |
| SeedChecks.PlaceholderInBody | src/lib/templateData.ts:70-290 | each placeholder of a woven body occurs in it |
| SeedChecks.HeaderImagePlain | src/lib/templateData.ts:26 | `header-image` is plain |
| SeedChecks.HeaderImageToken | src/components/EmailPreview.tsx:15 | `header-image` derives the token name `HEADER_IMAGE` |
| SeedChecks.HeaderImageOccurs | src/lib/templateData.ts:92 | the token `{{HEADER_IMAGE}}` derived from `header-image` occurs in the body |
| SeedChecks.HeaderLinkPlain | src/lib/templateData.ts:33 | `header-link` is plain |
| SeedChecks.HeaderLinkToken | src/components/EmailPreview.tsx:15 | `header-link` derives the token name `HEADER_LINK` |
| SeedChecks.HeaderLinkOccurs | src/lib/templateData.ts:91 | the token `{{HEADER_LINK}}` derived from `header-link` occurs in the body |
| SeedChecks.MainContentPlain | src/lib/templateData.ts:41 | `main-content` is plain |
| SeedChecks.MainContentToken | src/components/EmailPreview.tsx:15 | `main-content` derives the token name `MAIN_CONTENT` |
| SeedChecks.MainContentOccurs | src/lib/templateData.ts:96 | the token `{{MAIN_CONTENT}}` derived from `main-content` occurs in the body |
| SeedChecks.ShowOptionalSectionPlain | src/lib/templateData.ts:48 | `show-optional-section` is plain |
| SeedChecks.ShowOptionalSectionToken | src/components/EmailPreview.tsx:15 | `show-optional-section` derives the token name `SHOW_OPTIONAL-SECTION` |
| SeedChecks.ShowOptionalSectionMarker | src/lib/templateData.ts:97-101 | the all-underscore form of `show-optional-section` is `SHOW_OPTIONAL_SECTION`, the name its block markers use |
| SeedChecks.OptionalContentPlain | src/lib/templateData.ts:56 | `optional-content` is plain |
| SeedChecks.OptionalContentToken | src/components/EmailPreview.tsx:15 | `optional-content` derives the token name `OPTIONAL_CONTENT` |
| SeedChecks.OptionalContentOccurs | src/lib/templateData.ts:99 | the token `{{OPTIONAL_CONTENT}}` derived from `optional-content` occurs in the body |
| SeedChecks.FooterContentPlain | src/lib/templateData.ts:63 | `footer-content` is plain |
| SeedChecks.FooterContentToken | src/components/EmailPreview.tsx:15 | `footer-content` derives the token name `FOOTER_CONTENT` |
| SeedChecks.FooterContentOccurs | src/lib/templateData.ts:104 | the token `{{FOOTER_CONTENT}}` derived from `footer-content` occurs in the body |
| SeedChecks.NewsletterTokensOccur | src/lib/templateData.ts:24-109 | for every non-toggle field, its first-hyphen token occurs in the body |
| SeedChecks.NewsletterPlainIds | src/lib/templateData.ts:24-68 | every field id is plain: over `[a-z0-9-]` and not all digits |
| SeedChecks.NewsletterTitleOnce | src/lib/templateData.ts:76 | `TITLE` is the first placeholder of the body and appears once among them |
| SeedChecks.NewsletterTitleOccurs | src/lib/templateData.ts:76 | the body contains `{{TITLE}}` |
| SeedChecks.NewsletterToggleUnmatched | src/lib/templateData.ts:70-109 | the fourth field is the toggle, and its derived token name is none of the body's placeholders |
| SeedChecks.NewsletterOpenMarker | src/lib/templateData.ts:97 | the opening marker is `#` followed by the toggle id's all-underscore form |
| SeedChecks.NewsletterCloseMarker | src/lib/templateData.ts:101 | the closing marker is `/` followed by the toggle id's all-underscore form |
| SeedChecks.NewsletterControlledToken | src/lib/templateData.ts:97-101 | the placeholder between the markers is the token name of the field the toggle controls |
| SeedChecks.NewsletterToggleBlock | src/lib/templateData.ts:97-101 | the toggle controls the fifth field, whose token sits between the all-underscore open and close markers |
| SeedChecks.NewsletterMarkersOccur | src/lib/templateData.ts:97-101 | both block markers occur in the body |
| SeedChecks.HeroImagePlain | src/lib/templateData.ts:117 | `hero-image` is plain |
| SeedChecks.HeroImageToken | src/components/EmailPreview.tsx:15 | `hero-image` derives the token name `HERO_IMAGE` |
| SeedChecks.HeroImageOccurs | src/lib/templateData.ts:183 | the token `{{HERO_IMAGE}}` derived from `hero-image` occurs in the body |
| SeedChecks.CtaLinkPlain | src/lib/templateData.ts:124 | `cta-link` is plain |
| SeedChecks.CtaLinkToken | src/components/EmailPreview.tsx:15 | `cta-link` derives the token name `CTA_LINK` |
| SeedChecks.CtaLinkOccurs | src/lib/templateData.ts:182 | the token `{{CTA_LINK}}` derived from `cta-link` occurs in the body |
| SeedChecks.PromotionalContentPlain | src/lib/templateData.ts:132 | `promotional-content` is plain |
| SeedChecks.PromotionalContentToken | src/components/EmailPreview.tsx:15 | `promotional-content` derives the token name `PROMOTIONAL_CONTENT` |
| SeedChecks.PromotionalContentOccurs | src/lib/templateData.ts:187 | the token `{{PROMOTIONAL_CONTENT}}` derived from `promotional-content` occurs in the body |
| SeedChecks.ShowBonusSectionPlain | src/lib/templateData.ts:139 | `show-bonus-section` is plain |
| SeedChecks.ShowBonusSectionToken | src/components/EmailPreview.tsx:15 | `show-bonus-section` derives the token name `SHOW_BONUS-SECTION` |
| SeedChecks.ShowBonusSectionMarker | src/lib/templateData.ts:188-192 | the all-underscore form of `show-bonus-section` is `SHOW_BONUS_SECTION`, the name its block markers use |
| SeedChecks.BonusContentPlain | src/lib/templateData.ts:147 | `bonus-content` is plain |
| SeedChecks.BonusContentToken | src/components/EmailPreview.tsx:15 | `bonus-content` derives the token name `BONUS_CONTENT` |
| SeedChecks.BonusContentOccurs | src/lib/templateData.ts:190 | the token `{{BONUS_CONTENT}}` derived from `bonus-content` occurs in the body |
| SeedChecks.FooterPromoPlain | src/lib/templateData.ts:154 | `footer-promo` is plain |
| SeedChecks.FooterPromoToken | src/components/EmailPreview.tsx:15 | `footer-promo` derives the token name `FOOTER_PROMO` |
| SeedChecks.FooterPromoOccurs | src/lib/templateData.ts:195 | the token `{{FOOTER_PROMO}}` derived from `footer-promo` occurs in the body |
| SeedChecks.PromotionalTokensOccur | src/lib/templateData.ts:115-200 | for every non-toggle field, its first-hyphen token occurs in the body |
| SeedChecks.PromotionalPlainIds | src/lib/templateData.ts:115-159 | every field id is plain: over `[a-z0-9-]` and not all digits |
| SeedChecks.PromotionalTitleOnce | src/lib/templateData.ts:167 | `TITLE` is the first placeholder of the body and appears once among them |
| SeedChecks.PromotionalTitleOccurs | src/lib/templateData.ts:167 | the body contains `{{TITLE}}` |
| SeedChecks.PromotionalToggleUnmatched | src/lib/templateData.ts:161-200 | the fourth field is the toggle, and its derived token name is none of the body's placeholders |
| SeedChecks.PromotionalOpenMarker | src/lib/templateData.ts:188 | the opening marker is `#` followed by the toggle id's all-underscore form |
| SeedChecks.PromotionalCloseMarker | src/lib/templateData.ts:192 | the closing marker is `/` followed by the toggle id's all-underscore form |
| SeedChecks.PromotionalControlledToken | src/lib/templateData.ts:188-192 | the placeholder between the markers is the token name of the field the toggle controls |
| SeedChecks.PromotionalToggleBlock | src/lib/templateData.ts:188-192 | the toggle controls the fifth field, whose token sits between the all-underscore open and close markers |
| SeedChecks.PromotionalMarkersOccur | src/lib/templateData.ts:188-192 | both block markers occur in the body |
| SeedChecks.WelcomeImagePlain | src/lib/templateData.ts:208 | `welcome-image` is plain |
| SeedChecks.WelcomeImageToken | src/components/EmailPreview.tsx:15 | `welcome-image` derives the token name `WELCOME_IMAGE` |
| SeedChecks.WelcomeImageOccurs | src/lib/templateData.ts:273 | the token `{{WELCOME_IMAGE}}` derived from `welcome-image` occurs in the body |
| SeedChecks.CompanyLinkPlain | src/lib/templateData.ts:215 | `company-link` is plain |
| SeedChecks.CompanyLinkToken | src/components/EmailPreview.tsx:15 | `company-link` derives the token name `COMPANY_LINK` |
| SeedChecks.CompanyLinkOccurs | src/lib/templateData.ts:272 | the token `{{COMPANY_LINK}}` derived from `company-link` occurs in the body |
| SeedChecks.WelcomeMessagePlain | src/lib/templateData.ts:223 | `welcome-message` is plain |
| SeedChecks.WelcomeMessageToken | src/components/EmailPreview.tsx:15 | `welcome-message` derives the token name `WELCOME_MESSAGE` |
| SeedChecks.WelcomeMessageOccurs | src/lib/templateData.ts:277 | the token `{{WELCOME_MESSAGE}}` derived from `welcome-message` occurs in the body |
| SeedChecks.ShowGettingStartedPlain | src/lib/templateData.ts:230 | `show-getting-started` is plain |
| SeedChecks.ShowGettingStartedToken | src/components/EmailPreview.tsx:15 | `show-getting-started` derives the token name `SHOW_GETTING-STARTED` |
| SeedChecks.ShowGettingStartedMarker | src/lib/templateData.ts:278-282 | the all-underscore form of `show-getting-started` is `SHOW_GETTING_STARTED`, the name its block markers use |
| SeedChecks.GettingStartedPlain | src/lib/templateData.ts:238 | `getting-started` is plain |
| SeedChecks.GettingStartedToken | src/components/EmailPreview.tsx:15 | `getting-started` derives the token name `GETTING_STARTED` |
| SeedChecks.GettingStartedOccurs | src/lib/templateData.ts:280 | the token `{{GETTING_STARTED}}` derived from `getting-started` occurs in the body |
| SeedChecks.WelcomeFooterPlain | src/lib/templateData.ts:245 | `welcome-footer` is plain |
| SeedChecks.WelcomeFooterToken | src/components/EmailPreview.tsx:15 | `welcome-footer` derives the token name `WELCOME_FOOTER` |
| SeedChecks.WelcomeFooterOccurs | src/lib/templateData.ts:285 | the token `{{WELCOME_FOOTER}}` derived from `welcome-footer` occurs in the body |
| SeedChecks.WelcomeSeriesTokensOccur | src/lib/templateData.ts:206-290 | for every non-toggle field, its first-hyphen token occurs in the body |
| SeedChecks.WelcomeSeriesPlainIds | src/lib/templateData.ts:206-250 | every field id is plain: over `[a-z0-9-]` and not all digits |
| SeedChecks.WelcomeSeriesTitleOnce | src/lib/templateData.ts:258 | `TITLE` is the first placeholder of the body and appears once among them |
| SeedChecks.WelcomeSeriesTitleOccurs | src/lib/templateData.ts:258 | the body contains `{{TITLE}}` |
| SeedChecks.WelcomeSeriesToggleUnmatched | src/lib/templateData.ts:252-290 | the fourth field is the toggle, and its derived token name is none of the body's placeholders |
| SeedChecks.WelcomeSeriesOpenMarker | src/lib/templateData.ts:278 | the opening marker is `#` followed by the toggle id's all-underscore form |
| SeedChecks.WelcomeSeriesCloseMarker | src/lib/templateData.ts:282 | the closing marker is `/` followed by the toggle id's all-underscore form |
| SeedChecks.WelcomeSeriesControlledToken | src/lib/templateData.ts:278-282 | the placeholder between the markers is the token name of the field the toggle controls |
| SeedChecks.WelcomeSeriesToggleBlock | src/lib/templateData.ts:278-282 | the toggle controls the fifth field, whose token sits between the all-underscore open and close markers |
| SeedChecks.WelcomeSeriesMarkersOccur | src/lib/templateData.ts:278-282 | both block markers occur in the body |
| SeedChecks.MarkerOfPlainId | src/lib/templateData.ts:97-101 | `#` or `/` followed by the all-underscore form of a plain id is a non-empty marker with no brace |
| SeedChecks.NewsletterMarkerShapes | src/lib/templateData.ts:97-101 | the newsletter's opening marker starts with `#`, its closing marker with `/`, and neither holds a brace |
| SeedChecks.NewsletterRenderOpenMarker | src/lib/templateData.ts:97 | the newsletter's opening block marker `{{#…}}` is still present in the rendered preview |
| SeedChecks.NewsletterRenderCloseMarker | src/lib/templateData.ts:101 | the newsletter's closing block marker `{{/…}}` is still present in the rendered preview |
| SeedChecks.PromotionalMarkerShapes | src/lib/templateData.ts:188-192 | the promotional template's opening marker starts with `#`, its closing marker with `/`, and neither holds a brace |
| SeedChecks.PromotionalRenderOpenMarker | src/lib/templateData.ts:188 | the promotional template's opening block marker `{{#…}}` is still present in the rendered preview |
| SeedChecks.PromotionalRenderCloseMarker | src/lib/templateData.ts:192 | the promotional template's closing block marker `{{/…}}` is still present in the rendered preview |
| SeedChecks.WelcomeSeriesMarkerShapes | src/lib/templateData.ts:278-282 | the welcome series' opening marker starts with `#`, its closing marker with `/`, and neither holds a brace |
| SeedChecks.WelcomeSeriesRenderOpenMarker | src/lib/templateData.ts:278 | the welcome series' opening block marker `{{#…}}` is still present in the rendered preview |
| SeedChecks.WelcomeSeriesRenderCloseMarker | src/lib/templateData.ts:282 | the welcome series' closing block marker `{{/…}}` is still present in the rendered preview |
| SeedChecks.ThreeSections | src/components/ControlPanel.tsx:19 | labels `a a b b b c` with three distinct values give the sections `a b c` |
| SeedChecks.NewsletterSections | src/components/ControlPanel.tsx:19-20 | the newsletter's sections are Header, Content, Footer, and the panel opens on Header |
| SeedChecks.PromotionalSections | src/components/ControlPanel.tsx:19-20 | the promotional template's sections are Hero, Content, Footer, and the panel opens on Hero |
| SeedChecks.WelcomeSeriesSections | src/components/ControlPanel.tsx:19-20 | the welcome series' sections are Header, Content, Footer, and the panel opens on Header |
| ControlPanel.HandleFieldUpdate | src/components/ControlPanel.tsx:26-29 | same length; same ids in the same order; each field with the given id gets the new value and keeps every other attribute; every other field is unchanged |
| ControlPanel.UpdateUnknownId | src/components/ControlPanel.tsx:27-29 | an id no field has yields a list equal to the input |
| ControlPanel.UpdateIdempotent | src/components/ControlPanel.tsx:28 | applying the same update twice gives the same list as applying it once |
| ControlPanel.UpdateLastWins | src/components/ControlPanel.tsx:28 | a second update of the same field overrides the first |
| ControlPanel.UpdatesCommute | src/components/ControlPanel.tsx:27-29 | updates of two different ids can be applied in either order |
| ControlPanel.MergeFieldsUpdate | src/pages/Editor.tsx:24-28 | with a template loaded, the merge replaces the fields and keeps `id`, `name`, `description` and `htmlTemplate`; with none loaded it yields none |
| ControlPanel.EditField | src/components/ControlPanel.tsx:26-31 | an edit composed with the editor's merge (src/pages/Editor.tsx:24-28): with a template loaded, the fields with the edited id take the new value, every other field and the `id`, `name`, `description` and `htmlTemplate` stay as they were; with none loaded nothing is loaded afterwards |
| ControlPanel.EditPreservesStructure | src/components/ControlPanel.tsx:26-31 | an edit sent up through the merge keeps field ids unique and every toggle's `controlsSection` resolving to a field |
| ControlPanel.IndexOf | src/components/ControlPanel.tsx:19 | the first position of a label: the label is there and not earlier |
| ControlPanel.Distinct | src/components/ControlPanel.tsx:19 | `Array.from(new Set(...))`: no duplicates, exactly the same labels, and the first label first |
| ControlPanel.DistinctFirstAppearance | src/components/ControlPanel.tsx:19 | labels are listed in the order of their first appearance in the input |
| ControlPanel.SectionLabels | src/components/ControlPanel.tsx:19 | the section of each field, in field order |
| ControlPanel.Sections | src/components/ControlPanel.tsx:19 | no duplicates, exactly the sections the fields carry, and the first field's section first |
| ControlPanel.SectionsInFieldOrder | src/components/ControlPanel.tsx:19 | sections appear in the order in which their first field appears |
| ControlPanel.InitialActiveSection | src/components/ControlPanel.tsx:20 | the first field's section, or `Content` when there are no fields or the first section is the empty string |
| ControlPanel.SectionFields | src/components/ControlPanel.tsx:108 | only fields of the given section, in order (a subsequence of the fields), each field of that section as many times as in the input, and no other field |
| ControlPanel.TabFields | src/components/ControlPanel.tsx:128-131 | the tab panels one after the other: each shown field is one of the template's fields whose section is a listed tab, and every field whose section is a listed tab is shown |
| ControlPanel.TabsShowEachFieldOnce | src/components/ControlPanel.tsx:128-131 | when every field's section is among a duplicate-free list of tabs, the tabs together show every field exactly once |
| ControlPanel.SectionTabsPartition | src/components/ControlPanel.tsx:118-131 | with one tab per section, the tabs together show every field exactly once |

## Left out

- EmailPreview.RenderedHtml: the replace is modelled as literal substring
  matching. `new RegExp(token, 'g')` would give meaning to regular-expression
  metacharacters in an id. An id made only of digits would also make `{{N}}`
  a repetition count. For such ids, the method and `Render` describe literal
  matching, not the source. The lemmas that rest on the shape of a token
  (`EmailPreview.TokenNameShape`, `TokenNotMarker`, `TokenNameInverse`,
  `TokenInjective`, `TokenNotInOtherToken`, `EarlierFieldMissesLaterValue`,
  `MarkerUntouched`, `ApplyFieldsKeepsMarker`, `RenderKeepsMarker`) require
  plain ids, which exclude both cases. The other rendering lemmas
  (`SubstituteSplitJoin`, `SubstituteAbsent`, `SubstituteLength`,
  `ApplyFieldsAbsent`, `TitleInValueReplaced`, `LaterFieldFillsEarlierValue`,
  and the contracts of `Substitute`, `ApplyFields` and `Render`) hold for every
  id under literal matching, and describe the source only for plain ids: for
  an id such as `a.b` the source's pattern `{{A.B}}` also matches `{{AXB}}`.
- EmailPreview.RenderedHtml: the `$&`, `$$`, `` $` `` and `$'` patterns that
  `String.prototype.replace` expands in a replacement string are not modelled.
  Values are inserted verbatim. A value such as `$100` contains none of these
  patterns.
- Strings.Upper: only ASCII letters are upper-cased. JavaScript's full
  Unicode case mapping (`ß` to `SS`, which changes the length) is not
  modelled.
- Templates.GetTemplateById: the table is a finite map. Lookups that JavaScript
  would satisfy from the object's prototype chain (an id such as `toString`)
  are not modelled.
- SeedChecks.NewsletterTitleOnce, SeedChecks.PromotionalTitleOnce,
  SeedChecks.WelcomeSeriesTitleOnce: "`{{TITLE}}` exactly once" is stated
  over each body's placeholder list. The static markup between placeholders
  is not proved free of further `{{TITLE}}` text. Scanning the long literal
  bodies is beyond what the verifier discharges here.
- SeedChecks.NewsletterToggleUnmatched, SeedChecks.PromotionalToggleUnmatched,
  SeedChecks.WelcomeSeriesToggleUnmatched: these prove that the toggle's
  derived token name (such as `SHOW_BONUS-SECTION`) is none of the body's
  placeholders. They do not prove that the token text, such as
  `{{SHOW_BONUS-SECTION}}`, is absent from the static markup. Scanning the
  long literal bodies is beyond what the verifier discharges here.
- EmailPreview.RenderKeepsMarker: a seed's full rendered output is not
  computed, for the same reason of literal size; for each seed the lemmas
  `SeedChecks.NewsletterRenderOpenMarker` and its counterparts state only that
  the block markers survive rendering.
- The preview's display is not part of this model: the iframe, its sandbox
  and the `useMemo` caching (src/components/EmailPreview.tsx:25-83).
- Also not part of this model:
  - the control panel's JSX, its field icons and labels (src/components/ControlPanel.tsx:33-105, 110-183);
  - the `console.log` calls;
  - the React state hook holding the active section.

  The tab layout's grid-column choice is UI. What the tabs show is modelled
  by `ControlPanel.TabsShowEachFieldOnce`.
- The rich-text editor (src/components/WysiwygEditor.tsx) is not part of this
  model. It is browser DOM behaviour: `execCommand`, `contentEditable` and
  `prompt`.
- These pages are not part of this model beyond the one-line merge in
  `ControlPanel.MergeFieldsUpdate`:
  - the template gallery (src/pages/Index.tsx);
  - the editor page's routing, loading state and save/preview/send
    handlers, which only log (src/pages/Editor.tsx).
