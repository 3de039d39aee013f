/**
 * The template records and the built-in template table: the `TemplateField`
 * and `TemplateData` records, the three seed templates, and the lookups
 * `getTemplateById` and `getAllTemplates`.
 */
module Templates {
  import opened Strings

  datatype Option<T> = None | Some(value: T)

  /** The `type` of a field, which selects its editor control. */
  datatype FieldType = Text | Image | Link | Html | Wysiwyg | Toggle

  /**
   * One editable field (`caption` is the source's `label`, `kind` its `type`).
   * Its `id` also names the body token it fills in;
   * a toggle's `controlsSection` names the field whose block it switches.
   */
  datatype TemplateField = TemplateField(
    id: string,
    caption: string,
    kind: FieldType,
    value: string,
    placeholder: Option<string>,
    section: string,
    controlsSection: Option<string>)

  datatype TemplateData = TemplateData(
    id: string,
    name: string,
    description: string,
    fields: seq<TemplateField>,
    htmlTemplate: string)

  /**
   * A body written as static markup alternating with `{{name}}` placeholders:
   * the part from the `i`-th static piece on.
   */
  function Weave(statics: seq<string>, names: seq<string>, i: nat): string
    requires |statics| == |names| + 1 && i <= |names|
    decreases |names| - i
  {
    if i == |names| then statics[i]
    else statics[i] + (Placeholder(names[i]) + Weave(statics, names, i + 1))
  }

  /** Every placeholder woven into a body from position `i` on occurs in it. */
  lemma {:induction false} WeaveOccurs(statics: seq<string>, names: seq<string>, i: nat, j: nat)
    requires |statics| == |names| + 1 && i <= j < |names|
    ensures Occurs(Weave(statics, names, i), Placeholder(names[j]))
    decreases j - i
  {
    var rest := Weave(statics, names, i + 1);
    if i == j {
      OccursMiddle(statics[i], Placeholder(names[i]), rest);
      assert statics[i] + Placeholder(names[i]) + rest == statics[i] + (Placeholder(names[i]) + rest);
    } else {
      WeaveOccurs(statics, names, i + 1, j);
      OccursRight(Placeholder(names[i]), rest, Placeholder(names[j]));
      OccursRight(statics[i], Placeholder(names[i]) + rest, Placeholder(names[j]));
    }
  }

  // ---------------------------------------------------------------------
  // Structural invariants of a template's field list
  // ---------------------------------------------------------------------

  /** No two fields share an id. */
  predicate UniqueFieldIds(fields: seq<TemplateField>)
  {
    forall i, j :: 0 <= i < j < |fields| ==> fields[i].id != fields[j].id
  }

  /** Some field of the list has id `id`. */
  predicate HasField(fields: seq<TemplateField>, id: string)
  {
    exists j | 0 <= j < |fields| :: fields[j].id == id
  }

  /** Every toggle names, through `controlsSection`, another field of the list. */
  predicate TogglesResolve(fields: seq<TemplateField>)
  {
    forall i :: 0 <= i < |fields| && fields[i].kind == Toggle ==>
      fields[i].controlsSection.Some? &&
      fields[i].controlsSection.value != fields[i].id &&
      HasField(fields, fields[i].controlsSection.value)
  }

  /** Every toggle is switched on. */
  predicate TogglesOn(fields: seq<TemplateField>)
  {
    forall i :: 0 <= i < |fields| && fields[i].kind == Toggle ==> fields[i].value == "true"
  }

  /** The fields of `newsletter-basic`, in table order. */
  const NewsletterFields: seq<TemplateField> := [
      TemplateField(
        id := "header-image",
        caption := "Header Image",
        kind := Image,
        value := "https://images.unsplash.com/photo-1649972904349-6e44c42644a7?w=600&h=200&fit=crop",
        placeholder := None,
        section := "Header",
        controlsSection := None),
      TemplateField(
        id := "header-link",
        caption := "Header Link URL",
        kind := Link,
        value := "https://example.com",
        placeholder := Some("Enter website URL"),
        section := "Header",
        controlsSection := None),
      TemplateField(
        id := "main-content",
        caption := "Main Content",
        kind := Wysiwyg,
        value := "<h2>Welcome to our Newsletter!</h2><p>This is the main content area where you can add your newsletter content. You can format text, add links, and create engaging content for your subscribers.</p><p>Feel free to customize this section with your own content.</p>",
        placeholder := None,
        section := "Content",
        controlsSection := None),
      TemplateField(
        id := "show-optional-section",
        caption := "Show Optional Section",
        kind := Toggle,
        value := "true",
        placeholder := None,
        section := "Content",
        controlsSection := Some("optional-content")),
      TemplateField(
        id := "optional-content",
        caption := "Optional Content Block",
        kind := Wysiwyg,
        value := "<h3>Additional Information</h3><p>This is an optional content section that can be toggled on or off. Use this space for additional details, announcements, or special offers.</p>",
        placeholder := None,
        section := "Content",
        controlsSection := None),
      TemplateField(
        id := "footer-content",
        caption := "Footer Content",
        kind := Wysiwyg,
        value := "<p>© 2024 Your Company Name. All rights reserved.</p><p>You received this email because you subscribed to our newsletter.</p><p><a href='#'>Unsubscribe</a> | <a href='#'>Manage Preferences</a></p>",
        placeholder := None,
        section := "Footer",
        controlsSection := None)
  ]

  /** The static markup of the `newsletter-basic` body, between its placeholders. */
  const NewsletterStatics: seq<string> := [
    @"
      <!DOCTYPE html>
      <html>
      <head>
        <meta charset=""utf-8"">
        <meta name=""viewport"" content=""width=device-width, initial-scale=1.0"">
        <title>",
    @"</title>
        <style>
          body { font-family: Arial, sans-serif; margin: 0; padding: 0; background-color: #f4f4f4; }
          .container { max-width: 600px; margin: 0 auto; background-color: white; }
          .header { text-align: center; padding: 20px; }
          .header img { max-width: 100%; height: auto; border-radius: 8px; }
          .content { padding: 30px; line-height: 1.6; color: #333; }
          .optional-section { margin-top: 30px; padding-top: 30px; border-top: 1px solid #eee; }
          .footer { background-color: #f8f9fa; padding: 20px; text-align: center; font-size: 12px; color: #666; }
          .footer a { color: #007bff; text-decoration: none; }
        </style>
      </head>
      <body>
        <div class=""container"">
          <div class=""header"">
            <a href=""",
    @""">
              <img src=""",
    @""" alt=""Header Image"" />
            </a>
          </div>
          <div class=""content"">
            ",
    @"
            ",
    @"
            <div class=""optional-section"">
              ",
    @"
            </div>
            ",
    @"
          </div>
          <div class=""footer"">
            ",
    @"
          </div>
        </div>
      </body>
      </html>
    "
  ]

  /** The `{{...}}` placeholders of the `newsletter-basic` body, in order. */
  const NewsletterPlaceholders: seq<string> := ["TITLE", "HEADER_LINK", "HEADER_IMAGE", "MAIN_CONTENT", "#SHOW_OPTIONAL_SECTION", "OPTIONAL_CONTENT", "/SHOW_OPTIONAL_SECTION", "FOOTER_CONTENT"]

  const Newsletter: TemplateData := TemplateData(
    id := "newsletter-basic",
    name := "Basic Newsletter",
    description := "Simple newsletter template with header, content section, and footer",
    fields := NewsletterFields,
    htmlTemplate := NewsletterBody)

  /** The body: its static pieces with its placeholders woven in between. */
  const NewsletterBody: string :=
    NewsletterStatics[0] + (Placeholder(NewsletterPlaceholders[0]) + (
    NewsletterStatics[1] + (Placeholder(NewsletterPlaceholders[1]) + (
    NewsletterStatics[2] + (Placeholder(NewsletterPlaceholders[2]) + (
    NewsletterStatics[3] + (Placeholder(NewsletterPlaceholders[3]) + (
    NewsletterStatics[4] + (Placeholder(NewsletterPlaceholders[4]) + (
    NewsletterStatics[5] + (Placeholder(NewsletterPlaceholders[5]) + (
    NewsletterStatics[6] + (Placeholder(NewsletterPlaceholders[6]) + (
    NewsletterStatics[7] + (Placeholder(NewsletterPlaceholders[7]) + (
    NewsletterStatics[8]))))))))))))))))

  /** The body is the weave of its static pieces and its placeholders. */
  lemma NewsletterBodyWoven()
    ensures Newsletter.htmlTemplate == Weave(NewsletterStatics, NewsletterPlaceholders, 0)
  {
  }

  /** The fields of `promotional`, in table order. */
  const PromotionalFields: seq<TemplateField> := [
      TemplateField(
        id := "hero-image",
        caption := "Hero Image",
        kind := Image,
        value := "https://images.unsplash.com/photo-1488590528505-98d2b5aba04b?w=600&h=300&fit=crop",
        placeholder := None,
        section := "Hero",
        controlsSection := None),
      TemplateField(
        id := "cta-link",
        caption := "Call-to-Action Link",
        kind := Link,
        value := "https://example.com/shop",
        placeholder := Some("Enter CTA URL"),
        section := "Hero",
        controlsSection := None),
      TemplateField(
        id := "promotional-content",
        caption := "Promotional Content",
        kind := Wysiwyg,
        value := "<h1 style='color: #e74c3c; text-align: center;'>Special Offer!</h1><p style='text-align: center; font-size: 18px;'>Don't miss out on our amazing deals. Limited time offer!</p><div style='text-align: center; padding: 20px;'><a href='#' style='background-color: #e74c3c; color: white; padding: 15px 30px; text-decoration: none; border-radius: 5px; font-weight: bold;'>Shop Now</a></div>",
        placeholder := None,
        section := "Content",
        controlsSection := None),
      TemplateField(
        id := "show-bonus-section",
        caption := "Show Bonus Offer",
        kind := Toggle,
        value := "true",
        placeholder := None,
        section := "Content",
        controlsSection := Some("bonus-content")),
      TemplateField(
        id := "bonus-content",
        caption := "Bonus Offer Content",
        kind := Wysiwyg,
        value := "<h2 style='color: #27ae60; text-align: center;'>Bonus Offer!</h2><p style='text-align: center;'>Get an additional 15% off when you spend over $100. Use code: BONUS15</p>",
        placeholder := None,
        section := "Content",
        controlsSection := None),
      TemplateField(
        id := "footer-promo",
        caption := "Footer",
        kind := Wysiwyg,
        value := "<p style='text-align: center;'>Follow us on social media for more deals!</p><p style='text-align: center; font-size: 12px;'>© 2024 Your Store. All rights reserved.</p>",
        placeholder := None,
        section := "Footer",
        controlsSection := None)
  ]

  /** The static markup of the `promotional` body, between its placeholders. */
  const PromotionalStatics: seq<string> := [
    @"
      <!DOCTYPE html>
      <html>
      <head>
        <meta charset=""utf-8"">
        <meta name=""viewport"" content=""width=device-width, initial-scale=1.0"">
        <title>",
    @"</title>
        <style>
          body { font-family: Arial, sans-serif; margin: 0; padding: 0; background-color: #f4f4f4; }
          .container { max-width: 600px; margin: 0 auto; background-color: white; border-radius: 10px; overflow: hidden; }
          .hero { position: relative; text-align: center; }
          .hero img { width: 100%; height: auto; }
          .content { padding: 30px; }
          .bonus-section { margin-top: 30px; padding: 20px; background-color: #f0f8ff; border-radius: 8px; }
          .footer { background-color: #2c3e50; color: white; padding: 20px; text-align: center; }
          .footer a { color: #3498db; }
        </style>
      </head>
      <body>
        <div class=""container"">
          <div class=""hero"">
            <a href=""",
    @""">
              <img src=""",
    @""" alt=""Promotional Image"" />
            </a>
          </div>
          <div class=""content"">
            ",
    @"
            ",
    @"
            <div class=""bonus-section"">
              ",
    @"
            </div>
            ",
    @"
          </div>
          <div class=""footer"">
            ",
    @"
          </div>
        </div>
      </body>
      </html>
    "
  ]

  /** The `{{...}}` placeholders of the `promotional` body, in order. */
  const PromotionalPlaceholders: seq<string> := ["TITLE", "CTA_LINK", "HERO_IMAGE", "PROMOTIONAL_CONTENT", "#SHOW_BONUS_SECTION", "BONUS_CONTENT", "/SHOW_BONUS_SECTION", "FOOTER_PROMO"]

  const Promotional: TemplateData := TemplateData(
    id := "promotional",
    name := "Promotional Email",
    description := "Eye-catching promotional template with call-to-action sections",
    fields := PromotionalFields,
    htmlTemplate := PromotionalBody)

  /** The body: its static pieces with its placeholders woven in between. */
  const PromotionalBody: string :=
    PromotionalStatics[0] + (Placeholder(PromotionalPlaceholders[0]) + (
    PromotionalStatics[1] + (Placeholder(PromotionalPlaceholders[1]) + (
    PromotionalStatics[2] + (Placeholder(PromotionalPlaceholders[2]) + (
    PromotionalStatics[3] + (Placeholder(PromotionalPlaceholders[3]) + (
    PromotionalStatics[4] + (Placeholder(PromotionalPlaceholders[4]) + (
    PromotionalStatics[5] + (Placeholder(PromotionalPlaceholders[5]) + (
    PromotionalStatics[6] + (Placeholder(PromotionalPlaceholders[6]) + (
    PromotionalStatics[7] + (Placeholder(PromotionalPlaceholders[7]) + (
    PromotionalStatics[8]))))))))))))))))

  /** The body is the weave of its static pieces and its placeholders. */
  lemma PromotionalBodyWoven()
    ensures Promotional.htmlTemplate == Weave(PromotionalStatics, PromotionalPlaceholders, 0)
  {
  }

  /** The fields of `welcome-series`, in table order. */
  const WelcomeSeriesFields: seq<TemplateField> := [
      TemplateField(
        id := "welcome-image",
        caption := "Welcome Image",
        kind := Image,
        value := "https://images.unsplash.com/photo-1581091226825-a6a2a5aee158?w=600&h=250&fit=crop",
        placeholder := None,
        section := "Header",
        controlsSection := None),
      TemplateField(
        id := "company-link",
        caption := "Company Website",
        kind := Link,
        value := "https://yourcompany.com",
        placeholder := Some("Enter company URL"),
        section := "Header",
        controlsSection := None),
      TemplateField(
        id := "welcome-message",
        caption := "Welcome Message",
        kind := Wysiwyg,
        value := "<h1 style='color: #2ecc71; text-align: center;'>Welcome Aboard!</h1><p>Thank you for joining our community! We're excited to have you with us and can't wait to share amazing content, exclusive offers, and updates.</p><p>Here's what you can expect from us:</p><ul><li>Weekly newsletters with valuable insights</li><li>Exclusive member-only discounts</li><li>Early access to new products and features</li></ul><p>If you have any questions, don't hesitate to reach out to our team.</p>",
        placeholder := None,
        section := "Content",
        controlsSection := None),
      TemplateField(
        id := "show-getting-started",
        caption := "Show Getting Started Guide",
        kind := Toggle,
        value := "true",
        placeholder := None,
        section := "Content",
        controlsSection := Some("getting-started")),
      TemplateField(
        id := "getting-started",
        caption := "Getting Started Guide",
        kind := Wysiwyg,
        value := "<h2 style='color: #3498db;'>Getting Started</h2><p>Here are some quick steps to help you get the most out of your membership:</p><ol><li>Complete your profile setup</li><li>Explore our resource library</li><li>Join our community discussions</li><li>Follow us on social media</li></ol>",
        placeholder := None,
        section := "Content",
        controlsSection := None),
      TemplateField(
        id := "welcome-footer",
        caption := "Footer Message",
        kind := Wysiwyg,
        value := "<p style='text-align: center;'>Welcome to the family!</p><p style='text-align: center; font-size: 12px;'>© 2024 Your Company. We're glad you're here!</p>",
        placeholder := None,
        section := "Footer",
        controlsSection := None)
  ]

  /** The static markup of the `welcome-series` body, between its placeholders. */
  const WelcomeSeriesStatics: seq<string> := [
    @"
      <!DOCTYPE html>
      <html>
      <head>
        <meta charset=""utf-8"">
        <meta name=""viewport"" content=""width=device-width, initial-scale=1.0"">
        <title>",
    @"</title>
        <style>
          body { font-family: Arial, sans-serif; margin: 0; padding: 0; background-color: #f8f9fa; }
          .container { max-width: 600px; margin: 0 auto; background-color: white; box-shadow: 0 4px 6px rgba(0,0,0,0.1); }
          .header { text-align: center; padding: 20px; background: linear-gradient(135deg, #667eea 0%, #764ba2 100%); }
          .header img { max-width: 100%; height: auto; border-radius: 8px; }
          .content { padding: 40px 30px; line-height: 1.7; color: #444; }
          .getting-started-section { margin-top: 30px; padding: 25px; background-color: #e8f4fd; border-left: 4px solid #3498db; }
          .footer { background-color: #2ecc71; color: white; padding: 25px; text-align: center; }
        </style>
      </head>
      <body>
        <div class=""container"">
          <div class=""header"">
            <a href=""",
    @""">
              <img src=""",
    @""" alt=""Welcome Image"" />
            </a>
          </div>
          <div class=""content"">
            ",
    @"
            ",
    @"
            <div class=""getting-started-section"">
              ",
    @"
            </div>
            ",
    @"
          </div>
          <div class=""footer"">
            ",
    @"
          </div>
        </div>
      </body>
      </html>
    "
  ]

  /** The `{{...}}` placeholders of the `welcome-series` body, in order. */
  const WelcomeSeriesPlaceholders: seq<string> := ["TITLE", "COMPANY_LINK", "WELCOME_IMAGE", "WELCOME_MESSAGE", "#SHOW_GETTING_STARTED", "GETTING_STARTED", "/SHOW_GETTING_STARTED", "WELCOME_FOOTER"]

  const WelcomeSeries: TemplateData := TemplateData(
    id := "welcome-series",
    name := "Welcome Email",
    description := "Warm welcome template for new subscribers and customers",
    fields := WelcomeSeriesFields,
    htmlTemplate := WelcomeSeriesBody)

  /** The body: its static pieces with its placeholders woven in between. */
  const WelcomeSeriesBody: string :=
    WelcomeSeriesStatics[0] + (Placeholder(WelcomeSeriesPlaceholders[0]) + (
    WelcomeSeriesStatics[1] + (Placeholder(WelcomeSeriesPlaceholders[1]) + (
    WelcomeSeriesStatics[2] + (Placeholder(WelcomeSeriesPlaceholders[2]) + (
    WelcomeSeriesStatics[3] + (Placeholder(WelcomeSeriesPlaceholders[3]) + (
    WelcomeSeriesStatics[4] + (Placeholder(WelcomeSeriesPlaceholders[4]) + (
    WelcomeSeriesStatics[5] + (Placeholder(WelcomeSeriesPlaceholders[5]) + (
    WelcomeSeriesStatics[6] + (Placeholder(WelcomeSeriesPlaceholders[6]) + (
    WelcomeSeriesStatics[7] + (Placeholder(WelcomeSeriesPlaceholders[7]) + (
    WelcomeSeriesStatics[8]))))))))))))))))

  /** The body is the weave of its static pieces and its placeholders. */
  lemma WelcomeSeriesBodyWoven()
    ensures WelcomeSeries.htmlTemplate == Weave(WelcomeSeriesStatics, WelcomeSeriesPlaceholders, 0)
  {
  }

  // ---------------------------------------------------------------------
  // The table and its lookups
  // ---------------------------------------------------------------------

  /** The table keys, in insertion order. */
  const TemplateIds: seq<string> := ["newsletter-basic", "promotional", "welcome-series"]

  /** The `templates` record: template id to template. */
  const Table: map<string, TemplateData> :=
    map["newsletter-basic" := Newsletter, "promotional" := Promotional, "welcome-series" := WelcomeSeries]

  /** The id stored in each seed template. */
  lemma SeedIds()
    ensures Newsletter.id == "newsletter-basic"
    ensures Promotional.id == "promotional"
    ensures WelcomeSeries.id == "welcome-series"
  {
  }

  /** The keys of the table are exactly `TemplateIds`, and each key is the id of its entry. */
  lemma TableEntry(id: string)
    ensures id in Table <==> id in TemplateIds
    ensures id in Table ==> Table[id].id == id
  {
    SeedIds();
  }

  /** `templates[id] || null`: the stored entry, or nothing for an unknown id. */
  function GetTemplateById(id: string): (r: Option<TemplateData>)
    ensures r.Some? <==> id in TemplateIds
    ensures r.Some? ==> r.value == Table[id] && r.value.id == id
  {
    TableEntry(id);
    if id in Table then Some(Table[id]) else None
  }

  /** `Object.values(templates)`: every entry, in key insertion order. */
  function GetAllTemplates(): (r: seq<TemplateData>)
    ensures |r| == |TemplateIds| == 3
    ensures r[0] == Table[TemplateIds[0]] && r[1] == Table[TemplateIds[1]] && r[2] == Table[TemplateIds[2]]
    ensures r[0].id == TemplateIds[0] && r[1].id == TemplateIds[1] && r[2].id == TemplateIds[2]
    ensures forall i, j :: 0 <= i < j < |r| ==> r[i].id != r[j].id
  {
    SeedIds();
    var r := [Newsletter, Promotional, WelcomeSeries];
    DistinctIds(r);
    r
  }

  /** Helper for `GetAllTemplates`: templates carrying the three seed ids have distinct ids. */
  lemma DistinctIds(r: seq<TemplateData>)
    requires |r| == 3
    requires r[0].id == TemplateIds[0] && r[1].id == TemplateIds[1] && r[2].id == TemplateIds[2]
    ensures forall i, j :: 0 <= i < j < |r| ==> r[i].id != r[j].id
  {
  }

  // ---------------------------------------------------------------------
  // Seed field lists
  // ---------------------------------------------------------------------

  /** Ids, types and toggle settings of the `newsletter-basic` fields. */
  lemma NewsletterShape()
    ensures |NewsletterFields| == 6
    ensures NewsletterFields[0].id == "header-image" && NewsletterFields[0].kind == Image
    ensures NewsletterFields[1].id == "header-link" && NewsletterFields[1].kind == Link
    ensures NewsletterFields[2].id == "main-content" && NewsletterFields[2].kind == Wysiwyg
    ensures NewsletterFields[3].id == "show-optional-section" && NewsletterFields[3].kind == Toggle
    ensures NewsletterFields[3].value == "true" && NewsletterFields[3].controlsSection == Some("optional-content")
    ensures NewsletterFields[4].id == "optional-content" && NewsletterFields[4].kind == Wysiwyg
    ensures NewsletterFields[5].id == "footer-content" && NewsletterFields[5].kind == Wysiwyg
  {
  }

  /** Ids, types and toggle settings of the `promotional` fields. */
  lemma PromotionalShape()
    ensures |PromotionalFields| == 6
    ensures PromotionalFields[0].id == "hero-image" && PromotionalFields[0].kind == Image
    ensures PromotionalFields[1].id == "cta-link" && PromotionalFields[1].kind == Link
    ensures PromotionalFields[2].id == "promotional-content" && PromotionalFields[2].kind == Wysiwyg
    ensures PromotionalFields[3].id == "show-bonus-section" && PromotionalFields[3].kind == Toggle
    ensures PromotionalFields[3].value == "true" && PromotionalFields[3].controlsSection == Some("bonus-content")
    ensures PromotionalFields[4].id == "bonus-content" && PromotionalFields[4].kind == Wysiwyg
    ensures PromotionalFields[5].id == "footer-promo" && PromotionalFields[5].kind == Wysiwyg
  {
  }

  /** Ids, types and toggle settings of the `welcome-series` fields. */
  lemma WelcomeSeriesShape()
    ensures |WelcomeSeriesFields| == 6
    ensures WelcomeSeriesFields[0].id == "welcome-image" && WelcomeSeriesFields[0].kind == Image
    ensures WelcomeSeriesFields[1].id == "company-link" && WelcomeSeriesFields[1].kind == Link
    ensures WelcomeSeriesFields[2].id == "welcome-message" && WelcomeSeriesFields[2].kind == Wysiwyg
    ensures WelcomeSeriesFields[3].id == "show-getting-started" && WelcomeSeriesFields[3].kind == Toggle
    ensures WelcomeSeriesFields[3].value == "true" && WelcomeSeriesFields[3].controlsSection == Some("getting-started")
    ensures WelcomeSeriesFields[4].id == "getting-started" && WelcomeSeriesFields[4].kind == Wysiwyg
    ensures WelcomeSeriesFields[5].id == "welcome-footer" && WelcomeSeriesFields[5].kind == Wysiwyg
  {
  }

  /** The invariants every seed field list satisfies. */
  predicate SeedFieldsValid(fields: seq<TemplateField>)
  {
    UniqueFieldIds(fields) && TogglesResolve(fields) && TogglesOn(fields)
  }

  lemma NewsletterFieldsValid()
    ensures SeedFieldsValid(NewsletterFields)
  {
    NewsletterShape();
    assert HasField(NewsletterFields, "optional-content") by {
      assert NewsletterFields[4].id == "optional-content";
    }
  }

  lemma PromotionalFieldsValid()
    ensures SeedFieldsValid(PromotionalFields)
  {
    PromotionalShape();
    assert HasField(PromotionalFields, "bonus-content") by {
      assert PromotionalFields[4].id == "bonus-content";
    }
  }

  lemma WelcomeSeriesFieldsValid()
    ensures SeedFieldsValid(WelcomeSeriesFields)
  {
    WelcomeSeriesShape();
    assert HasField(WelcomeSeriesFields, "getting-started") by {
      assert WelcomeSeriesFields[4].id == "getting-started";
    }
  }

  /** Every seed template has unique field ids and resolvable toggles, all switched on. */
  lemma SeedFieldsWellFormed()
    ensures forall i :: 0 <= i < |GetAllTemplates()| ==> SeedFieldsValid(GetAllTemplates()[i].fields)
  {
    NewsletterFieldsValid();
    PromotionalFieldsValid();
    WelcomeSeriesFieldsValid();
  }
}
